/** What every run of disposals, registrations and crashes keeps: the two databases move through
    four joint states, and nothing ever points at a Run that is going or gone. */
module DisposalLaws {
  import opened StrictJson
  import opened DisposalProtocol

  // ---------------------------------------------------------------- the joint state of a Run

  /** `Live`: rows there, nothing decided. `Doomed`: rows there, registry says deleting.
      `Buried`: rows replaced by a tombstone. `Closed`: the registry has the tombstone too. */
  datatype Stage = Live | Doomed | Buried | Closed

  function Rank(s: Stage): nat { match s case Live => 0 case Doomed => 1 case Buried => 2 case Closed => 3 }

  function StageOf(w: World, o: Origin): Stage
    requires o in w.registry.runs && w.registry.runs[o].hotPath in w.stores
  {
    var record := w.registry.runs[o];
    if record.state == Disposed then Closed
    else if record.state != Deleting then Live
    else if o.run in w.stores[record.hotPath].tombstones then Buried
    else Doomed
  }

  /** The operation and plan that a Run belongs to once its disposal was recorded. */
  function OwnerOf(w: World, o: Origin): Option<Deletion>
    requires o in w.registry.runs
  {
    var record := w.registry.runs[o];
    if record.state == Deleting then record.deletion
    else if record.state == Disposed && record.tombstone.Some? then
      Some(Deletion(record.tombstone.value.operation, record.tombstone.value.plan))
    else None
  }

  // ---------------------------------------------------------------- the invariant

  predicate RowsThere(s: Store, run: string) { run in s.runs && run !in s.tombstones }
  predicate RowsGone(s: Store, run: string) { run !in s.runs && run in s.tombstones }

  /** Registry and source agree about one Run. */
  predicate Agree(w: World, o: Origin)
    requires o in w.registry.runs
  {
    var record := w.registry.runs[o];
    && record.hotPath in w.stores && w.stores[record.hotPath].id == o.store
    && (record.state in {Active, Archived} ==>
          RowsThere(w.stores[record.hotPath], o.run) && record.deletion.None? && record.tombstone.None?)
    && (record.state == Deleting ==>
          && record.deletion.Some? && PlanFor(record.deletion.value.plan, o, record.hotPath)
          && (RowsThere(w.stores[record.hotPath], o.run)
              || (RowsGone(w.stores[record.hotPath], o.run)
                  && w.stores[record.hotPath].tombstones[o.run] == TombstoneFor(record.deletion.value, o))))
    && (record.state == Disposed ==>
          && RowsGone(w.stores[record.hotPath], o.run)
          && record.tombstone == Some(w.stores[record.hotPath].tombstones[o.run]) && record.cold.None?)
  }

  predicate PlanFor(plan: Plan, o: Origin, path: string)
  {
    plan.origin == Some(o) && plan.path == path && plan.run == o.run && plan.blockers == {}
  }

  function TombstoneFor(d: Deletion, o: Origin): Tombstone { Tombstone(d.operation, o, d.plan) }

  /** Every tombstone belongs to a registered Run that is deleting or disposed there. */
  predicate TombstonesOwned(w: World, path: string, run: string)
    requires path in w.stores && run in w.stores[path].tombstones
  {
    var o := w.stores[path].tombstones[run].origin;
    && SameRun(o, w.stores[path].id, run)
    && o in w.registry.runs && w.registry.runs[o].state in {Deleting, Disposed} && w.registry.runs[o].hotPath == path
  }

  ghost predicate ReferencesAlive(g: Registry)
  {
    && (forall r :: r in g.references ==> Open(g, r.target))
    && (forall r :: r in g.references ==> r.source in g.runs && g.runs[r.source].state != Disposed)
  }

  ghost predicate IdentitiesUnique(g: Registry)
  {
    forall o, q :: o in g.runs && q in g.runs && SameRun(q, o.store, o.run) ==> o == q
  }

  /** What a process in the middle of its work relies on. */
  ghost predicate ProcessOk(w: World, p: Process)
  {
    match p
    case Registrar(path, o) =>
      path in w.stores && w.stores[path].id == o.store
      && (o.run in w.stores[path].runs || o.run in w.stores[path].tombstones)
    case Disposer(plan, operation, phase) =>
      && plan.origin.Some? && plan.path in w.stores && plan.origin.value in w.registry.runs
      && var o, record := plan.origin.value, w.registry.runs[plan.origin.value];
         && PlanFor(plan, o, record.hotPath)
         && match phase
            case Ready => Open(w.registry, o) && RowsThere(w.stores[plan.path], plan.run) && !Incoming(w.registry, o)
            case Marked => Held(record, operation, plan) && RowsThere(w.stores[plan.path], plan.run)
            case Relocked => Held(record, operation, plan) && RowsThere(w.stores[plan.path], plan.run)
            case Deleted => Held(record, operation, plan) && RowsGone(w.stores[plan.path], plan.run)
  }

  predicate Held(record: Record, operation: string, plan: Plan)
  {
    record.state == Deleting && record.deletion == Some(Deletion(operation, plan))
  }

  ghost predicate LocksExclusive(w: World)
  {
    forall p, q :: p in w.processes && q in w.processes && p != q ==>
      && !(HoldsRegistry(w.processes[p]) && HoldsRegistry(w.processes[q]))
      && forall path :: path in w.stores ==> !(HoldsStore(w.processes[p], path) && HoldsStore(w.processes[q], path))
  }

  ghost predicate Inv(w: World)
  {
    && (forall o :: o in w.registry.runs ==> Agree(w, o))
    && (forall path, run :: path in w.stores && run in w.stores[path].tombstones ==> TombstonesOwned(w, path, run))
    && ReferencesAlive(w.registry) && IdentitiesUnique(w.registry)
    && (forall p :: p in w.processes ==> ProcessOk(w, w.processes[p]))
    && LocksExclusive(w)
  }

  /** A beginning: no disposal has happened, and every registered Run is there. */
  predicate Initial(w: World)
  {
    && w.processes == map[] && w.registry.references == {}
    && (forall path :: path in w.stores ==> w.stores[path].tombstones == map[])
    && (forall o :: o in w.registry.runs ==>
          var record := w.registry.runs[o];
          && record.state in {Active, Archived} && record.deletion.None? && record.tombstone.None?
          && record.hotPath in w.stores && w.stores[record.hotPath].id == o.store && o.run in w.stores[record.hotPath].runs)
    && (forall o, q :: o in w.registry.runs && q in w.registry.runs && SameRun(q, o.store, o.run) ==> o == q)
  }

  lemma InitialInv(w: World)
    requires Initial(w)
    ensures Inv(w)
  {
  }

  // ---------------------------------------------------------------- what a step leaves alone

  /** A store that lost no row, gained no tombstone and revived no disposed Run. */
  predicate CalmStore(s: Store, t: Store)
  {
    && t.id == s.id && t.tombstones == s.tombstones
    && (forall r :: r in s.runs ==> r in t.runs)
    && (forall r :: r in t.runs && r in t.tombstones ==> r in s.runs)
  }

  ghost predicate CalmStores(w: World, v: World)
  {
    w.stores.Keys == v.stores.Keys && forall path :: path in w.stores ==> CalmStore(w.stores[path], v.stores[path])
  }

  lemma AgreeCalm(w: World, v: World, o: Origin)
    requires CalmStores(w, v) && o in w.registry.runs && o in v.registry.runs
    requires v.registry.runs[o] == w.registry.runs[o].(cold := v.registry.runs[o].cold)
    requires w.registry.runs[o].state != Disposed || v.registry.runs[o] == w.registry.runs[o]
    ensures Agree(w, o) ==> Agree(v, o)
  {
    if Agree(w, o) {
      assert CalmStore(w.stores[w.registry.runs[o].hotPath], v.stores[w.registry.runs[o].hotPath]);
    }
  }

  /** Records keep what tombstones rest on. */
  ghost predicate RecordsKeep(g: Registry, h: Registry)
  {
    forall o :: o in g.runs ==>
      && o in h.runs && h.runs[o].hotPath == g.runs[o].hotPath && h.runs[o].state == g.runs[o].state
      && h.runs[o].deletion == g.runs[o].deletion
  }

  lemma OwnedCalm(w: World, v: World, path: string, run: string)
    requires CalmStores(w, v) && RecordsKeep(w.registry, v.registry)
    requires path in w.stores && run in w.stores[path].tombstones
    ensures run in v.stores[path].tombstones
    ensures TombstonesOwned(w, path, run) ==> TombstonesOwned(v, path, run)
  {
    assert CalmStore(w.stores[path], v.stores[path]);
  }

  lemma ProcessCalm(w: World, v: World, p: Process)
    requires CalmStores(w, v) && RecordsKeep(w.registry, v.registry) && ProcessOk(w, p)
    requires p.Disposer? && p.phase.Ready? ==> !Incoming(v.registry, p.plan.origin.value)
    ensures ProcessOk(v, p)
  {
    match p
    case Registrar(path, o) => assert CalmStore(w.stores[path], v.stores[path]);
    case Disposer(plan, operation, phase) => assert CalmStore(w.stores[plan.path], v.stores[plan.path]);
  }

  /** A step that is calm on the stores and keeps the records keeps the whole invariant, as far
      as references and processes are in order. */
  lemma CalmKeeps(w: World, v: World)
    requires Inv(w) && CalmStores(w, v) && RecordsKeep(w.registry, v.registry)
    requires forall o :: o in v.registry.runs ==>
      || (o in w.registry.runs && v.registry.runs[o] == w.registry.runs[o].(cold := v.registry.runs[o].cold)
          && (w.registry.runs[o].state == Disposed ==> v.registry.runs[o] == w.registry.runs[o]))
      || Agree(v, o)
    requires ReferencesAlive(v.registry) && IdentitiesUnique(v.registry) && LocksExclusive(v)
    requires forall p :: p in v.processes ==> (p in w.processes && v.processes[p] == w.processes[p]) || ProcessOk(v, v.processes[p])
    requires forall p :: p in w.processes && w.processes[p].Disposer? && w.processes[p].phase.Ready? ==>
      v.registry.references == w.registry.references
    ensures Inv(v)
  {
    forall o | o in v.registry.runs ensures Agree(v, o) {
      if o in w.registry.runs {
        assert Agree(w, o);
        hide Agree, CalmStores, RecordsKeep;
        if v.registry.runs[o] == w.registry.runs[o].(cold := v.registry.runs[o].cold)
           && (w.registry.runs[o].state == Disposed ==> v.registry.runs[o] == w.registry.runs[o]) {
          AgreeCalm(w, v, o);
        }
      }
    }
    forall path, run | path in v.stores && run in v.stores[path].tombstones ensures TombstonesOwned(v, path, run) {
      assert CalmStore(w.stores[path], v.stores[path]);
      assert TombstonesOwned(w, path, run);
      hide TombstonesOwned, CalmStores, RecordsKeep;
      OwnedCalm(w, v, path, run);
    }
    forall p | p in v.processes ensures ProcessOk(v, v.processes[p]) {
      if p in w.processes && v.processes[p] == w.processes[p] {
        var q := w.processes[p];
        assert ProcessOk(w, q);
        assert q.Disposer? && q.phase.Ready? ==> !Incoming(v.registry, q.plan.origin.value);
        hide ProcessOk, CalmStores, RecordsKeep;
        ProcessCalm(w, v, q);
      }
    }
    hide Agree, TombstonesOwned, ProcessOk, ReferencesAlive, IdentitiesUnique, CalmStores, RecordsKeep;
  }

  // ---------------------------------------------------------------- steps outside a disposal

  lemma ChangeKeeps(w: World, path: string, run: string, row: Row, records: nat)
    requires Inv(w) && ChangeRun(w, path, run, row, records).Some?
    ensures Inv(ChangeRun(w, path, run, row, records).value)
  {
    hide Inv;
    var v := ChangeRun(w, path, run, row, records).value;
    assert LocksExclusive(v) && ReferencesAlive(v.registry) && IdentitiesUnique(v.registry) by { InvUnfold(w); }
    CalmKeeps(w, v);
  }

  lemma InvUnfold(w: World)
    requires Inv(w)
    ensures LocksExclusive(w) && ReferencesAlive(w.registry) && IdentitiesUnique(w.registry)
    ensures forall p :: p in w.processes ==> ProcessOk(w, w.processes[p])
    ensures forall o :: o in w.registry.runs ==> Agree(w, o)
    ensures forall path, run :: path in w.stores && run in w.stores[path].tombstones ==> TombstonesOwned(w, path, run)
  {
    hide LocksExclusive, ReferencesAlive, IdentitiesUnique, ProcessOk, Agree, TombstonesOwned;
  }

  lemma LookKeeps(w: World, p: nat, path: string, run: string, header: string)
    requires Inv(w) && LookAtRun(w, p, path, run, header).Some?
    ensures Inv(LookAtRun(w, p, path, run, header).value)
  {
    hide Inv;
    var v := LookAtRun(w, p, path, run, header).value;
    InvUnfold(w);
    hide ReferencesAlive, IdentitiesUnique, Agree, TombstonesOwned;
    CalmKeeps(w, v);
  }

  /** A new record is for a Run whose rows are there: had they gone meanwhile, a record of the
      same identity would say so. */
  lemma RegisterSound(w: World, p: nat)
    requires Inv(w) && RegisterRun(w, p).Some?
    ensures var v, o := RegisterRun(w, p).value, w.processes[p].origin;
            o !in w.registry.runs ==> o in v.registry.runs && Agree(v, o)
  {
    hide ReferencesAlive, IdentitiesUnique, LocksExclusive, Agree;
    var o, path := w.processes[p].origin, w.processes[p].path;
    assert ProcessOk(w, w.processes[p]);
    if o.run in w.stores[path].tombstones {
      assert TombstonesOwned(w, path, o.run);
    }
    hide Inv;
    FreshAgrees(w, p);
  }

  lemma FreshAgrees(w: World, p: nat)
    requires RegisterRun(w, p).Some?
    requires var o, path := w.processes[p].origin, w.processes[p].path;
             path in w.stores && w.stores[path].id == o.store && (o in w.registry.runs || RowsThere(w.stores[path], o.run))
    ensures var v, o := RegisterRun(w, p).value, w.processes[p].origin;
            o !in w.registry.runs ==> o in v.registry.runs && Agree(v, o)
  {
  }

  lemma RegisterShape(w: World, p: nat)
    requires RegisterRun(w, p).Some?
    ensures var v, o := RegisterRun(w, p).value, w.processes[p].origin;
            && v.stores == w.stores && v.processes == w.processes - {p}
            && v.registry.references == w.registry.references
            && (forall q :: q in v.registry.runs <==> q in w.registry.runs || q == o)
            && (forall q :: q in w.registry.runs ==> v.registry.runs[q] == w.registry.runs[q])
            && (o !in w.registry.runs ==> forall q :: q in w.registry.runs ==> !SameRun(q, o.store, o.run))
            && CalmStores(w, v) && RecordsKeep(w.registry, v.registry)
  {
  }

  lemma RegisterKeeps(w: World, p: nat)
    requires Inv(w) && RegisterRun(w, p).Some?
    ensures Inv(RegisterRun(w, p).value)
  {
    hide Inv, RegisterRun, CalmStores, RecordsKeep;
    var v := RegisterRun(w, p).value;
    RegisterShape(w, p);
    RegisterSound(w, p);
    InvUnfold(w);
    hide ProcessOk, Agree, TombstonesOwned;
    CalmKeeps(w, v);
  }

  /** A new reference changes nothing else, and its target is neither deleting nor disposed. */
  lemma LinkShape(w: World, source: Origin, target: Origin)
    requires LinkRuns(w, source, target).Some?
    ensures var v := LinkRuns(w, source, target).value;
            && v.stores == w.stores && v.processes == w.processes && v.registry.runs == w.registry.runs && RegistryFree(w)
            && v.registry.references == w.registry.references + {Reference(source, target)}
            && RecordsKeep(w.registry, v.registry) && CalmStores(w, v)
            && Open(w.registry, source) && Open(w.registry, target)
  {
  }

  lemma LinkedAlive(g: Registry, h: Registry, source: Origin, target: Origin)
    requires ReferencesAlive(g) && h.runs == g.runs && h.references == g.references + {Reference(source, target)}
    requires Open(g, source) && Open(g, target)
    ensures ReferencesAlive(h)
  {
  }

  lemma LinkKeeps(w: World, source: Origin, target: Origin)
    requires Inv(w) && LinkRuns(w, source, target).Some?
    ensures Inv(LinkRuns(w, source, target).value)
  {
    hide Inv, LinkRuns, CalmStores, RecordsKeep, ReferencesAlive;
    var v := LinkRuns(w, source, target).value;
    LinkShape(w, source, target);
    InvUnfold(w);
    LinkedAlive(w.registry, v.registry, source, target);
    hide ProcessOk, Agree, TombstonesOwned;
    CalmKeeps(w, v);
  }

  lemma ArchiveShape(w: World, o: Origin, artifact: string)
    requires ArchiveRun(w, o, artifact).Some?
    ensures var v := ArchiveRun(w, o, artifact).value;
            && v.stores == w.stores && v.processes == w.processes && v.registry.references == w.registry.references
            && v.registry.runs.Keys == w.registry.runs.Keys && RegistryFree(w)
            && RecordsKeep(w.registry, v.registry) && CalmStores(w, v)
            && forall q :: q in w.registry.runs ==>
                 && v.registry.runs[q] == w.registry.runs[q].(cold := v.registry.runs[q].cold)
                 && (w.registry.runs[q].state == Disposed ==> v.registry.runs[q] == w.registry.runs[q])
  {
  }

  lemma ArchiveKeeps(w: World, o: Origin, artifact: string)
    requires Inv(w) && ArchiveRun(w, o, artifact).Some?
    ensures Inv(ArchiveRun(w, o, artifact).value)
  {
    hide Inv, ArchiveRun, CalmStores;
    var v := ArchiveRun(w, o, artifact).value;
    ArchiveShape(w, o, artifact);
    InvUnfold(w);
    assert ReferencesAlive(v.registry);
    hide ProcessOk, Agree, TombstonesOwned, ReferencesAlive;
    CalmKeeps(w, v);
  }

  lemma CloseKeeps(w: World)
    requires Inv(w) && CloseTheScope(w).Some?
    ensures Inv(CloseTheScope(w).value)
  {
    hide Inv;
    var v := CloseTheScope(w).value;
    InvUnfold(w);
    hide ProcessOk, Agree, TombstonesOwned;
    CalmKeeps(w, v);
  }

  lemma StopKeeps(w: World, p: nat)
    requires Inv(w) && p in w.processes
    ensures Inv(w.(processes := w.processes - {p}))
  {
    hide Inv;
    InvUnfold(w);
    hide ProcessOk, Agree, TombstonesOwned, ReferencesAlive, IdentitiesUnique;
    CalmKeeps(w, w.(processes := w.processes - {p}));
  }

  // ---------------------------------------------------------------- the steps of a disposal

  /** With both locks held, a plan that is admitted describes what is there. */
  lemma AdmittedOk(w: World, plan: Plan, operation: string)
    requires Inv(w) && ValidPlan(plan) && plan.path in w.stores && plan.origin.value in w.registry.runs
    requires Admitted(w, plan, operation).Some?
    ensures ProcessOk(w, Disposer(plan, operation, Admitted(w, plan, operation).value))
  {
    hide Inv, ReferencesAlive, IdentitiesUnique, LocksExclusive;
    InvUnfold(w);
    assert Agree(w, plan.origin.value);
    match Admitted(w, plan, operation).value
    case Deleted =>
      assert TombstonesOwned(w, plan.path, plan.run);
      hide BuildPlan, RetryMatches;
    case Relocked => hide TombstonesOwned, BuildPlan, RetryMatches;
    case Ready =>
      hide TombstonesOwned, RetryMatches;
      UniqueIsRegistered(w.registry, w.stores[plan.path].id, plan.run);
      hide UniqueOrigin;
  }

  lemma UniqueIsRegistered(g: Registry, store: string, run: string)
    ensures var u := UniqueOrigin(g, store, run);
            u.Some? ==> u.value in g.runs && SameRun(u.value, store, run)
  {
    if exists o :: OriginsOf(g, store, run) == {o} {
      var u := UniqueOrigin(g, store, run);
      assert u.value in OriginsOf(g, store, run);
    }
  }

  lemma StartKeeps(w: World, p: nat, plan: Plan, operation: string)
    requires Inv(w) && StartDisposal(w, p, plan, operation).Some?
    ensures Inv(StartDisposal(w, p, plan, operation).value)
  {
    hide Inv, Admitted;
    if !Replays(w.registry, plan, operation) {
      AdmittedOk(w, plan, operation);
      hide Replays, StartDisposal;
      assert StartDisposal(w, p, plan, operation).value
          == w.(processes := w.processes[p := Disposer(plan, operation, Admitted(w, plan, operation).value)]) by {
        StartShape(w, p, plan, operation);
      }
      StartShape(w, p, plan, operation);
      EnterKeeps(w, p, Disposer(plan, operation, Admitted(w, plan, operation).value));
    }
  }

  lemma StartShape(w: World, p: nat, plan: Plan, operation: string)
    requires StartDisposal(w, p, plan, operation).Some? && !Replays(w.registry, plan, operation)
    ensures ValidPlan(plan) && plan.path in w.stores && plan.origin.value in w.registry.runs
    ensures Admitted(w, plan, operation).Some? && p !in w.processes && RegistryFree(w) && StoreFree(w, plan.path)
    ensures StartDisposal(w, p, plan, operation)
         == Some(w.(processes := w.processes[p := Disposer(plan, operation, Admitted(w, plan, operation).value)]))
  {
    hide Admitted, Replays;
  }

  /** A process that finds both locks free may take them. */
  lemma EnterKeeps(w: World, p: nat, d: Process)
    requires Inv(w) && p !in w.processes && d.Disposer? && ProcessOk(w, d)
    requires RegistryFree(w) && StoreFree(w, d.plan.path)
    ensures Inv(w.(processes := w.processes[p := d]))
  {
    hide Inv;
    InvUnfold(w);
    var v := w.(processes := w.processes[p := d]);
    assert LocksExclusive(v) by { hide ProcessOk, Agree, TombstonesOwned, ReferencesAlive, IdentitiesUnique; }
    assert ProcessOk(v, d) by { hide Agree, TombstonesOwned, ReferencesAlive, IdentitiesUnique, LocksExclusive; }
    hide ProcessOk, Agree, TombstonesOwned, ReferencesAlive, IdentitiesUnique, LocksExclusive;
    CalmKeeps(w, v);
  }

  lemma RelockKeeps(w: World, p: nat)
    requires Inv(w) && TakeRegistryAgain(w, p).Some?
    ensures Inv(TakeRegistryAgain(w, p).value)
  {
    hide Inv;
    InvUnfold(w);
    var v := TakeRegistryAgain(w, p).value;
    assert ProcessOk(w, w.processes[p]);
    assert ProcessOk(v, v.processes[p]) by { hide Agree, TombstonesOwned, ReferencesAlive, IdentitiesUnique, LocksExclusive; }
    assert LocksExclusive(v) by { hide ProcessOk, Agree, TombstonesOwned, ReferencesAlive, IdentitiesUnique; }
    hide ProcessOk, Agree, TombstonesOwned, ReferencesAlive, IdentitiesUnique, LocksExclusive;
    CalmKeeps(w, v);
  }

  /** No two disposals of one Run are under way at the same time: their locks or the state of
      the rows would contradict each other. */
  lemma OneDisposal(w: World, p: nat, q: nat)
    requires Inv(w) && p in w.processes && q in w.processes && p != q
    requires w.processes[p].Disposer? && w.processes[q].Disposer?
    ensures w.processes[p].plan.origin != w.processes[q].plan.origin
  {
    hide ReferencesAlive, IdentitiesUnique, Agree, TombstonesOwned;
    assert ProcessOk(w, w.processes[p]) && ProcessOk(w, w.processes[q]);
  }

  lemma MarkShape(w: World, p: nat)
    requires MarkDeleting(w, p).Some?
    ensures InPhase(w, p, Ready)
    ensures var v, d := MarkDeleting(w, p).value, w.processes[p];
            var o := d.plan.origin.value;
            && v.stores == w.stores && v.processes == w.processes[p := d.(phase := Marked)]
            && v.registry.references == w.registry.references
            && v.registry.runs ==
                 w.registry.runs[o := w.registry.runs[o].(state := Deleting, deletion := Some(Deletion(d.operation, d.plan)))]
  {
  }

  lemma MarkAgrees(w: World, p: nat, q: Origin)
    requires Inv(w) && MarkDeleting(w, p).Some? && q in w.registry.runs
    ensures q in MarkDeleting(w, p).value.registry.runs && Agree(MarkDeleting(w, p).value, q)
  {
    hide Inv, ReferencesAlive, LocksExclusive, TombstonesOwned, MarkDeleting, IdentitiesUnique;
    InvUnfold(w);
    MarkShape(w, p);
    assert ProcessOk(w, w.processes[p]) && Agree(w, q);
  }

  lemma MarkOwned(w: World, p: nat, path: string, run: string)
    requires Inv(w) && MarkDeleting(w, p).Some? && path in w.stores && run in w.stores[path].tombstones
    ensures MarkDeleting(w, p).value.stores == w.stores && TombstonesOwned(MarkDeleting(w, p).value, path, run)
  {
    hide Inv, ReferencesAlive, LocksExclusive, Agree, MarkDeleting, IdentitiesUnique;
    InvUnfold(w);
    MarkShape(w, p);
    assert ProcessOk(w, w.processes[p]) && TombstonesOwned(w, path, run);
  }

  lemma MarkProcess(w: World, p: nat, q: nat)
    requires Inv(w) && MarkDeleting(w, p).Some? && q in MarkDeleting(w, p).value.processes
    ensures ProcessOk(MarkDeleting(w, p).value, MarkDeleting(w, p).value.processes[q])
  {
    hide Inv, ReferencesAlive, LocksExclusive, Agree, MarkDeleting, IdentitiesUnique, TombstonesOwned;
    InvUnfold(w);
    MarkShape(w, p);
    assert ProcessOk(w, w.processes[p]) && ProcessOk(w, w.processes[q]);
    if q != p && w.processes[q].Disposer? {
      OneDisposal(w, p, q);
    }
  }

  lemma MarkReferences(w: World, p: nat)
    requires Inv(w) && MarkDeleting(w, p).Some?
    ensures ReferencesAlive(MarkDeleting(w, p).value.registry) && IdentitiesUnique(MarkDeleting(w, p).value.registry)
  {
    hide Inv, LocksExclusive, Agree, MarkDeleting, TombstonesOwned;
    InvUnfold(w);
    MarkShape(w, p);
    assert ProcessOk(w, w.processes[p]);
  }

  lemma MarkKeeps(w: World, p: nat)
    requires Inv(w) && MarkDeleting(w, p).Some?
    ensures Inv(MarkDeleting(w, p).value)
  {
    hide Inv, MarkDeleting, ProcessOk, Agree, TombstonesOwned, ReferencesAlive, IdentitiesUnique;
    InvUnfold(w);
    MarkShape(w, p);
    MarkReferences(w, p);
    var v := MarkDeleting(w, p).value;
    assert LocksExclusive(v);
    hide LocksExclusive;
    forall q | q in v.registry.runs ensures Agree(v, q) { MarkAgrees(w, p, q); }
    forall path, run | path in v.stores && run in v.stores[path].tombstones ensures TombstonesOwned(v, path, run) {
      MarkOwned(w, p, path, run);
    }
    forall q | q in v.processes ensures ProcessOk(v, v.processes[q]) { MarkProcess(w, p, q); }
    InvFold(v);
  }

  lemma InvFold(w: World)
    requires LocksExclusive(w) && ReferencesAlive(w.registry) && IdentitiesUnique(w.registry)
    requires forall p :: p in w.processes ==> ProcessOk(w, w.processes[p])
    requires forall o :: o in w.registry.runs ==> Agree(w, o)
    requires forall path, run :: path in w.stores && run in w.stores[path].tombstones ==> TombstonesOwned(w, path, run)
    ensures Inv(w)
  {
    hide LocksExclusive, ReferencesAlive, IdentitiesUnique, ProcessOk, Agree, TombstonesOwned;
  }

  /** Deleting rows touches one Run of one store, and only one process works there. */
  lemma DeleteShape(w: World, p: nat, path: string)
    requires DeleteRun(w, p).Some? && path in w.stores
    ensures var v, d := DeleteRun(w, p).value, w.processes[p];
            && v.registry == w.registry && v.stores.Keys == w.stores.Keys && v.processes == w.processes[p := d.(phase := Deleted)]
            && v.stores[path].id == w.stores[path].id
            && (path != d.plan.path ==> v.stores[path] == w.stores[path])
            && (forall r :: r != d.plan.run ==>
                  && (r in v.stores[path].runs <==> r in w.stores[path].runs)
                  && (r in v.stores[path].tombstones <==> r in w.stores[path].tombstones)
                  && (r in w.stores[path].tombstones ==> v.stores[path].tombstones[r] == w.stores[path].tombstones[r]))
            && (path == d.plan.path ==>
                  && RowsGone(v.stores[path], d.plan.run)
                  && v.stores[path].tombstones[d.plan.run] == Tombstone(d.operation, d.plan.origin.value, d.plan))
  {
  }

  lemma DeleteAgrees(w: World, p: nat, q: Origin)
    requires Inv(w) && DeleteRun(w, p).Some? && q in w.registry.runs
    ensures Agree(DeleteRun(w, p).value, q)
  {
    hide Inv, ReferencesAlive, LocksExclusive, TombstonesOwned, DeleteRun;
    InvUnfold(w);
    DeletePhase(w, p);
    var d := w.processes[p];
    assert ProcessOk(w, d) && Agree(w, q) && Agree(w, d.plan.origin.value);
    DeleteShape(w, p, w.registry.runs[q].hotPath);
  }

  lemma DeletePhase(w: World, p: nat)
    requires DeleteRun(w, p).Some?
    ensures InPhase(w, p, Relocked)
  {
  }

  lemma DeleteProcess(w: World, p: nat, q: nat)
    requires Inv(w) && DeleteRun(w, p).Some? && q in w.processes && q != p
    ensures ProcessOk(DeleteRun(w, p).value, w.processes[q])
  {
    hide Inv, ReferencesAlive, IdentitiesUnique, TombstonesOwned, DeleteRun, Agree;
    InvUnfold(w);
    DeletePhase(w, p);
    var d, x := w.processes[p], w.processes[q];
    assert ProcessOk(w, d) && ProcessOk(w, x);
    DeleteShape(w, p, if x.Registrar? then x.path else x.plan.path);
  }

  lemma DeleteOwned(w: World, p: nat, path: string, run: string)
    requires Inv(w) && DeleteRun(w, p).Some? && path in w.stores
    requires run in DeleteRun(w, p).value.stores[path].tombstones
    ensures TombstonesOwned(DeleteRun(w, p).value, path, run)
  {
    hide Inv, ReferencesAlive, IdentitiesUnique, LocksExclusive, DeleteRun;
    InvUnfold(w);
    DeletePhase(w, p);
    var d := w.processes[p];
    assert ProcessOk(w, d) && Agree(w, d.plan.origin.value);
    DeleteShape(w, p, path);
    if run in w.stores[path].tombstones { assert TombstonesOwned(w, path, run); }
  }

  lemma DeleteKeeps(w: World, p: nat)
    requires Inv(w) && DeleteRun(w, p).Some?
    ensures Inv(DeleteRun(w, p).value)
  {
    hide Inv, DeleteRun, Agree, TombstonesOwned, ReferencesAlive, IdentitiesUnique;
    DeletePhase(w, p);
    var v, d := DeleteRun(w, p).value, w.processes[p];
    InvUnfold(w);
    DeleteShape(w, p, d.plan.path);
    assert LocksExclusive(v) by { hide ProcessOk; }
    assert ProcessOk(v, v.processes[p]) by { assert ProcessOk(w, d); }
    hide ProcessOk, LocksExclusive;
    forall q | q in v.processes ensures ProcessOk(v, v.processes[q]) {
      if q != p { DeleteProcess(w, p, q); }
    }
    forall q | q in v.registry.runs ensures Agree(v, q) { DeleteAgrees(w, p, q); }
    forall path, run | path in v.stores && run in v.stores[path].tombstones ensures TombstonesOwned(v, path, run) {
      DeleteOwned(w, p, path, run);
    }
    InvFold(v);
  }

  lemma FinishShape(w: World, p: nat)
    requires FinishDisposal(w, p).Some?
    ensures InPhase(w, p, Deleted)
    ensures var v, d := FinishDisposal(w, p).value, w.processes[p];
            var o, s := d.plan.origin.value, w.stores[d.plan.path];
            && d.plan.run in s.tombstones
            && v.stores == w.stores && v.processes == w.processes - {p}
            && v.registry.runs == w.registry.runs[o := Record(Disposed, d.plan.path, None, None, Some(s.tombstones[d.plan.run]))]
            && v.registry.references == set r | r in w.registry.references && r.source != o
  {
  }

  lemma FinishAgrees(w: World, p: nat, q: Origin)
    requires Inv(w) && FinishDisposal(w, p).Some? && q in w.registry.runs
    ensures q in FinishDisposal(w, p).value.registry.runs && Agree(FinishDisposal(w, p).value, q)
  {
    hide Inv, ReferencesAlive, LocksExclusive, TombstonesOwned, FinishDisposal, IdentitiesUnique;
    InvUnfold(w);
    FinishShape(w, p);
    assert ProcessOk(w, w.processes[p]) && Agree(w, q);
  }

  lemma FinishOwned(w: World, p: nat, path: string, run: string)
    requires Inv(w) && FinishDisposal(w, p).Some? && path in w.stores && run in w.stores[path].tombstones
    ensures FinishDisposal(w, p).value.stores == w.stores && TombstonesOwned(FinishDisposal(w, p).value, path, run)
  {
    hide Inv, ReferencesAlive, LocksExclusive, Agree, FinishDisposal, IdentitiesUnique;
    InvUnfold(w);
    FinishShape(w, p);
    assert ProcessOk(w, w.processes[p]) && TombstonesOwned(w, path, run);
  }

  lemma FinishProcess(w: World, p: nat, q: nat)
    requires Inv(w) && FinishDisposal(w, p).Some? && q in w.processes && q != p
    ensures ProcessOk(FinishDisposal(w, p).value, w.processes[q])
  {
    hide Inv, ReferencesAlive, LocksExclusive, Agree, FinishDisposal, IdentitiesUnique, TombstonesOwned;
    InvUnfold(w);
    FinishShape(w, p);
    assert ProcessOk(w, w.processes[p]) && ProcessOk(w, w.processes[q]);
    if w.processes[q].Disposer? {
      OneDisposal(w, p, q);
    }
  }

  lemma FinishReferences(w: World, p: nat)
    requires Inv(w) && FinishDisposal(w, p).Some?
    ensures ReferencesAlive(FinishDisposal(w, p).value.registry)
  {
    hide Inv, LocksExclusive, Agree, FinishDisposal, IdentitiesUnique, TombstonesOwned;
    InvUnfold(w);
    FinishShape(w, p);
    assert ProcessOk(w, w.processes[p]);
  }

  lemma FinishKeeps(w: World, p: nat)
    requires Inv(w) && FinishDisposal(w, p).Some?
    ensures Inv(FinishDisposal(w, p).value)
  {
    hide Inv, FinishDisposal, ProcessOk, Agree, TombstonesOwned, ReferencesAlive;
    InvUnfold(w);
    FinishShape(w, p);
    FinishReferences(w, p);
    var v := FinishDisposal(w, p).value;
    forall q | q in v.registry.runs ensures Agree(v, q) { FinishAgrees(w, p, q); }
    forall path, run | path in v.stores && run in v.stores[path].tombstones ensures TombstonesOwned(v, path, run) {
      FinishOwned(w, p, path, run);
    }
    forall q | q in v.processes ensures ProcessOk(v, v.processes[q]) { FinishProcess(w, p, q); }
    InvFold(v);
  }

  lemma InvStep(w: World, e: Event)
    requires Inv(w) && Next(w, e).Some?
    ensures Inv(Next(w, e).value)
  {
    hide Inv, ChangeRun, LookAtRun, RegisterRun, LinkRuns, ArchiveRun, CloseTheScope, StartDisposal, MarkDeleting,
         TakeRegistryAgain, DeleteRun, FinishDisposal;
    match e
    case Change(path, run, row, records) => ChangeKeeps(w, path, run, row, records);
    case Look(p, path, run, header) => LookKeeps(w, p, path, run, header);
    case Register(p) => RegisterKeeps(w, p);
    case AddReference(source, target) => LinkKeeps(w, source, target);
    case RegisterArchive(o, artifact) => ArchiveKeeps(w, o, artifact);
    case CloseScope => CloseKeeps(w);
    case Dispose(p, plan, operation) => StartKeeps(w, p, plan, operation);
    case Mark(p) => MarkKeeps(w, p);
    case Relock(p) => RelockKeeps(w, p);
    case Delete(p) => DeleteKeeps(w, p);
    case Finish(p) => FinishKeeps(w, p);
    case Stop(p) => StopKeeps(w, p);
  }

  lemma {:induction false} InvAlways(start: World, run: seq<Event>)
    requires Initial(start) && After(start, run).Some?
    ensures Inv(After(start, run).value)
    decreases |run|
  {
    hide Next, Inv, Initial;
    if run == [] {
      InitialInv(start);
    } else {
      InvAlways(start, run[..|run| - 1]);
      InvStep(After(start, run[..|run| - 1]).value, run[|run| - 1]);
    }
  }
}
