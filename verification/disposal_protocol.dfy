/** Disposing of a Run across two databases, as provenance.py does it: the registry and the
    source commit separately, and a process may stop between any two commits. */
module DisposalProtocol {
  import opened StrictJson

  // ---------------------------------------------------------------- the two databases

  /** The identity of a Run: its digest binds the store, the Run and the registered header. */
  datatype Origin = Origin(store: string, run: string, header: string)

  datatype Row = Row(revision: nat, state: string)
  datatype Token = Token(store: string, mutation: nat)

  /** One source database. `records` counts what else refers to a Run: links, tasks, attempts,
      executions, recoveries, outbox, watches, subscriptions, notifications and results. */
  datatype Store = Store(
    id: string, mutation: nat, runs: map<string, Row>, records: map<string, nat>, tombstones: map<string, Tombstone>)

  datatype RunState = Active | Archived | Deleting | Disposed

  datatype Deletion = Deletion(operation: string, plan: Plan)
  datatype Tombstone = Tombstone(operation: string, origin: Origin, plan: Plan)

  datatype Record = Record(
    state: RunState, hotPath: string, cold: Option<string>, deletion: Option<Deletion>, tombstone: Option<Tombstone>)

  datatype Reference = Reference(source: Origin, target: Origin)

  datatype Registry = Registry(
    revision: nat, scopeClosed: bool, runs: map<Origin, Record>, references: set<Reference>)

  // ---------------------------------------------------------------- plans

  datatype Blocker =
    | AlreadyDisposed | UnknownRun | NotTerminal | NotUniquelyRegistered | NotActive | ArchiveUnverified
    | HotPathMismatch | IncomingReferences | ScopeOpen | RelatedRecords

  datatype Plan = Plan(
    path: string, run: string, row: Option<Row>, origin: Option<Origin>, token: Token, registryRevision: nat,
    scopeClosed: bool, blockers: set<Blocker>)

  predicate Terminal(state: string) { state in {"succeeded", "failed", "cancelled"} }

  predicate SameRun(o: Origin, store: string, run: string) { o.store == store && o.run == run }

  function OriginsOf(g: Registry, store: string, run: string): set<Origin>
  {
    set o | o in g.runs && SameRun(o, store, run)
  }

  predicate Incoming(g: Registry, o: Origin) { exists r :: r in g.references && r.target == o }

  /** The one origin registered for a Run, if there is exactly one. */
  ghost function UniqueOrigin(g: Registry, store: string, run: string): Option<Origin>
  {
    if exists o :: OriginsOf(g, store, run) == {o} then
      var o :| OriginsOf(g, store, run) == {o};
      Some(o)
    else None
  }

  function RowBlockers(s: Store, run: string): set<Blocker>
  {
    if run in s.runs then (if Terminal(s.runs[run].state) then {} else {NotTerminal})
    else if run in s.tombstones then {AlreadyDisposed}
    else {UnknownRun}
  }

  /** What a record itself says against disposing of its Run from a path. */
  function RecordBlockers(record: Record, path: string): set<Blocker>
  {
    match record.state
    case Active => if record.hotPath != path then {HotPathMismatch} else {}
    case Archived => {ArchiveUnverified}
    case _ => {NotActive}
  }

  function OriginBlockers(g: Registry, origin: Option<Origin>, path: string): set<Blocker>
    requires origin.Some? ==> origin.value in g.runs
  {
    match origin
    case None => {NotUniquelyRegistered}
    case Some(o) =>
      RecordBlockers(g.runs[o], path) + (if Incoming(g, o) then {IncomingReferences} else {})
  }

  ghost function BuildPlan(s: Store, path: string, run: string, g: Registry): Plan
  {
    var origin := UniqueOrigin(g, s.id, run);
    Plan(path, run, if run in s.runs then Some(s.runs[run]) else None, origin, Token(s.id, s.mutation), g.revision,
         g.scopeClosed,
         RowBlockers(s, run) + OriginBlockers(g, origin, path) + (if g.scopeClosed then {} else {ScopeOpen})
         + (if run in s.records && s.records[run] > 0 then {RelatedRecords} else {}))
  }

  // ---------------------------------------------------------------- processes

  /** How far a disposal has come. `Ready` and `Relocked` hold both write locks, `Marked` only the
      source's, `Deleted` only the registry's: its source transaction is over. */
  datatype Phase = Ready | Marked | Relocked | Deleted

  datatype Process =
    | Registrar(path: string, origin: Origin)
    | Disposer(plan: Plan, operation: string, phase: Phase)

  datatype World = World(registry: Registry, stores: map<string, Store>, processes: map<nat, Process>)

  predicate HoldsRegistry(p: Process) { p.Disposer? && !p.phase.Marked? }
  predicate HoldsStore(p: Process, path: string) { p.Disposer? && !p.phase.Deleted? && p.plan.path == path }

  predicate RegistryFree(w: World) { forall p :: p in w.processes ==> !HoldsRegistry(w.processes[p]) }
  predicate StoreFree(w: World, path: string) { forall p :: p in w.processes ==> !HoldsStore(w.processes[p], path) }

  // ---------------------------------------------------------------- steps

  datatype Event =
    | Change(path: string, run: string, row: Row, records: nat)
    | Look(p: nat, path: string, run: string, header: string)
    | Register(p: nat)
    | AddReference(source: Origin, target: Origin)
    | RegisterArchive(origin: Origin, artifact: string)
    | CloseScope
    | Dispose(p: nat, plan: Plan, operation: string)
    | Mark(p: nat)
    | Relock(p: nat)
    | Delete(p: nat)
    | Finish(p: nat)
    | Stop(p: nat)

  /** Any commit of the orchestrator. It never removes a Run and never reuses a disposed one. */
  function ChangeRun(w: World, path: string, run: string, row: Row, records: nat): Option<World>
  {
    if path !in w.stores || !StoreFree(w, path) || run in w.stores[path].tombstones then None
    else
      var s := w.stores[path];
      Some(w.(stores := w.stores[path :=
        s.(mutation := s.mutation + 1, runs := s.runs[run := row], records := s.records[run := records])]))
  }

  /** Registration first reads the source in a transaction of its own. */
  function LookAtRun(w: World, p: nat, path: string, run: string, header: string): Option<World>
  {
    if p in w.processes || path !in w.stores || run in w.stores[path].tombstones || run !in w.stores[path].runs then None
    else Some(w.(processes := w.processes[p := Registrar(path, Origin(w.stores[path].id, run, header))]))
  }

  function Saved(g: Registry): Registry { g.(revision := g.revision + 1) }

  function RegisterRun(w: World, p: nat): Option<World>
  {
    if p !in w.processes || !w.processes[p].Registrar? || !RegistryFree(w) then None
    else
      var o, path, g := w.processes[p].origin, w.processes[p].path, w.registry;
      var record := Record(Active, path, None, None, None);
      var rest := w.processes - {p};
      if exists q :: q in g.runs && SameRun(q, o.store, o.run) && q != o then None
      else if o in g.runs then
        if g.runs[o] == record then Some(w.(processes := rest)) else None
      else Some(w.(registry := Saved(g.(runs := g.runs[o := record])), processes := rest))
  }

  predicate Open(g: Registry, o: Origin) { o in g.runs && g.runs[o].state !in {Deleting, Disposed} }

  function LinkRuns(w: World, source: Origin, target: Origin): Option<World>
  {
    var g, r := w.registry, Reference(source, target);
    if !RegistryFree(w) || !Open(g, source) || !Open(g, target) then None
    else if r in g.references then Some(w)
    else Some(w.(registry := Saved(g.(references := g.references + {r}))))
  }

  function ArchiveRun(w: World, o: Origin, artifact: string): Option<World>
  {
    var g := w.registry;
    if !RegistryFree(w) || !Open(g, o) then None
    else Some(w.(registry := Saved(g.(runs := g.runs[o := g.runs[o].(cold := Some(artifact))]))))
  }

  function CloseTheScope(w: World): Option<World>
  {
    if !RegistryFree(w) then None
    else if w.registry.scopeClosed then Some(w)
    else Some(w.(registry := Saved(w.registry.(scopeClosed := true))))
  }

  /** A retry accepts the marker it left as the only new blocker; registry revisions may have
      advanced, everything else must be as planned. */
  ghost predicate RetryMatches(s: Store, g: Registry, plan: Plan)
  {
    var now := BuildPlan(s, plan.path, plan.run, g);
    && now.blockers - {NotActive} == {}
    && now.row == plan.row && now.origin == plan.origin && now.token == plan.token && now.scopeClosed
  }

  predicate ValidPlan(plan: Plan) { plan.blockers == {} && plan.origin.Some? }

  /** What a disposal that has taken both locks may do next: nothing, or the phase it enters. */
  ghost function Admitted(w: World, plan: Plan, operation: string): Option<Phase>
    requires plan.origin.Some? && plan.origin.value in w.registry.runs && plan.path in w.stores
  {
    var o, g, s := plan.origin.value, w.registry, w.stores[plan.path];
    var record := g.runs[o];
    var deleting := record.state == Deleting;
    if deleting && record.deletion != Some(Deletion(operation, plan)) then None
    else if record.state == Disposed then None
    else if !deleting && g.revision != plan.registryRevision then None
    else if plan.run in s.tombstones then
      var t := s.tombstones[plan.run];
      if t == Tombstone(operation, o, plan) then Some(Deleted) else None
    else if deleting then (if RetryMatches(s, g, plan) then Some(Relocked) else None)
    else if BuildPlan(s, plan.path, plan.run, g) == plan then Some(Ready)
    else None
  }

  /** A disposed Run answers its own operation and plan from its tombstone. */
  predicate Replays(g: Registry, plan: Plan, operation: string)
  {
    && plan.origin.Some? && plan.origin.value in g.runs
    && g.runs[plan.origin.value].state == Disposed
    && g.runs[plan.origin.value].tombstone.Some?
    && g.runs[plan.origin.value].tombstone.value.operation == operation
    && g.runs[plan.origin.value].tombstone.value.plan == plan
  }

  ghost function StartDisposal(w: World, p: nat, plan: Plan, operation: string): Option<World>
  {
    if p in w.processes || !ValidPlan(plan) || plan.path !in w.stores || !RegistryFree(w) then None
    else if plan.origin.value !in w.registry.runs then None
    else if Replays(w.registry, plan, operation) then Some(w)
    else if !StoreFree(w, plan.path) then None
    else
      match Admitted(w, plan, operation)
      case None => None
      case Some(phase) => Some(w.(processes := w.processes[p := Disposer(plan, operation, phase)]))
  }

  predicate InPhase(w: World, p: nat, phase: Phase)
  {
    && p in w.processes && w.processes[p].Disposer? && w.processes[p].phase == phase
    && w.processes[p].plan.origin.Some? && w.processes[p].plan.origin.value in w.registry.runs
    && w.processes[p].plan.path in w.stores
  }

  /** First commit: the registry says that the Run is being deleted. */
  function MarkDeleting(w: World, p: nat): Option<World>
  {
    if !InPhase(w, p, Ready) then None
    else
      var d, g := w.processes[p], w.registry;
      var o := d.plan.origin.value;
      var record := g.runs[o].(state := Deleting, deletion := Some(Deletion(d.operation, d.plan)));
      Some(w.(registry := Saved(g.(runs := g.runs[o := record])), processes := w.processes[p := d.(phase := Marked)]))
  }

  function TakeRegistryAgain(w: World, p: nat): Option<World>
  {
    if !InPhase(w, p, Marked) || !RegistryFree(w) then None
    else Some(w.(processes := w.processes[p := w.processes[p].(phase := Relocked)]))
  }

  /** Second commit: the source loses every row of the Run and keeps a tombstone. */
  function DeleteRun(w: World, p: nat): Option<World>
  {
    if !InPhase(w, p, Relocked) then None
    else
      var d := w.processes[p];
      var s := w.stores[d.plan.path];
      var t := Tombstone(d.operation, d.plan.origin.value, d.plan);
      Some(w.(stores := w.stores[d.plan.path :=
                s.(mutation := s.mutation + 1, runs := s.runs - {d.plan.run}, records := s.records - {d.plan.run},
                   tombstones := s.tombstones[d.plan.run := t])],
              processes := w.processes[p := d.(phase := Deleted)]))
  }

  /** Third commit: the registry keeps the tombstone and drops what the Run referred to. */
  function FinishDisposal(w: World, p: nat): Option<World>
  {
    if !InPhase(w, p, Deleted) || w.processes[p].plan.run !in w.stores[w.processes[p].plan.path].tombstones then None
    else
      var d, g := w.processes[p], w.registry;
      var o := d.plan.origin.value;
      var t := w.stores[d.plan.path].tombstones[d.plan.run];
      var record := Record(Disposed, d.plan.path, None, None, Some(t));
      Some(w.(registry := Saved(g.(runs := g.runs[o := record],
                                   references := set r | r in g.references && r.source != o)),
              processes := w.processes - {p}))
  }

  ghost function Next(w: World, e: Event): Option<World>
  {
    match e
    case Change(path, run, row, records) => ChangeRun(w, path, run, row, records)
    case Look(p, path, run, header) => LookAtRun(w, p, path, run, header)
    case Register(p) => RegisterRun(w, p)
    case AddReference(source, target) => LinkRuns(w, source, target)
    case RegisterArchive(o, artifact) => ArchiveRun(w, o, artifact)
    case CloseScope => CloseTheScope(w)
    case Dispose(p, plan, operation) => StartDisposal(w, p, plan, operation)
    case Mark(p) => MarkDeleting(w, p)
    case Relock(p) => TakeRegistryAgain(w, p)
    case Delete(p) => DeleteRun(w, p)
    case Finish(p) => FinishDisposal(w, p)
    case Stop(p) => if p in w.processes then Some(w.(processes := w.processes - {p})) else None
  }

  ghost function After(w: World, run: seq<Event>): Option<World>
    decreases |run|
  {
    if run == [] then Some(w)
    else
      match After(w, run[..|run| - 1])
      case None => None
      case Some(v) => Next(v, run[|run| - 1])
  }

  // ---------------------------------------------------------------- locators

  datatype Locator = Hot(path: string) | Cold(artifact: string) | Gone(path: string, tombstone: Tombstone)

  function Resolve(g: Registry, o: Origin, preferCold: bool): Option<Locator>
  {
    if o !in g.runs then None
    else
      var record := g.runs[o];
      if record.state == Deleting then None
      else if preferCold && record.cold.Some? then Some(Cold(record.cold.value))
      else if record.state == Archived then None
      else if record.state == Disposed then
        if record.tombstone.Some? then Some(Gone(record.hotPath, record.tombstone.value)) else None
      else Some(Hot(record.hotPath))
  }
}
