/** Handing databases over to a restored copy, as storage_activation.py, maintenance.py and
    storage_connection.py do it: every durable fact changes in one atomic step, and any number
    of activations, writers, crashes and losses interleave between the steps. */
module HandoffProtocol {
  import opened StrictJson

  // ---------------------------------------------------------------- durable facts

  type Dir = string
  datatype Db = Db(dir: Dir, file: string)

  /** One database of a snapshot: its file name in a successor and its recorded contents. */
  datatype Member = Member(file: string, content: string)

  /** One activation: everything that its signed documents bind. Sources are the keys. */
  datatype Request = Request(operation: string, dest: Dir, members: map<Db, Member>)

  /** A reservation lies outside the destination. It is the pending document, or the receipt. */
  datatype Reservation = Reservation(request: Request, activated: bool)

  /** The published fence of a database and the holder of its lease, if one is recorded. */
  datatype Record = Record(fence: nat, holder: Option<nat>)

  datatype Disk = Disk(
    dirs: set<Dir>,
    content: map<Db, string>,
    retired: map<Db, Request>,
    records: map<Db, Record>,
    gates: set<Dir>,
    pending: map<Dir, Request>,
    receipts: map<Dir, Request>,
    reservations: map<Dir, Reservation>)

  function Component(r: Request, s: Db): Db
    requires s in r.members
  {
    Db(r.dest, r.members[s].file)
  }

  /** A snapshot names the file of a component after the component, so no two share one. */
  predicate WellNamed(r: Request)
  {
    forall s, t :: s in r.members && t in r.members && r.members[s].file == r.members[t].file ==> s == t
  }

  function FenceOf(d: Disk, s: Db): nat { if s in d.records then d.records[s].fence else 0 }

  // ---------------------------------------------------------------- processes

  /** How far an activation has come; the durable step named by the event comes next. */
  datatype Phase =
    | Preparing
    | Locking
    | Locked(source: Db)
    | Fenced(source: Db, fence: nat)
    | Verifying
    | Reserving
    | Retiring
    | Gating
    | Announcing
    | Copying
    | Committing
    | Clearing
    | Ungating
    | Rehashing
    | Settling
    | Leaving

  /** `leases` holds the fences of its leases, `done` the sources that the phase has handled. */
  datatype Activator = Activator(request: Request, phase: Phase, leases: map<Db, nat>, done: set<Db>)

  datatype WriterPhase = Knocked | Entered | Connected
  datatype Writer = Writer(db: Db, phase: WriterPhase)

  /** What has happened so far; no step reads it. */
  datatype History = History(
    reserved: set<Request>, placed: set<Request>, committed: set<Request>, ungated: set<Request>,
    lostReservations: set<Dir>, lostDirs: set<Dir>)

  datatype World = World(disk: Disk, activators: map<nat, Activator>, writers: map<nat, Writer>, history: History)

  /** The databases whose exclusive lock an activation holds. */
  function Holds(x: Activator): set<Db>
  {
    x.leases.Keys + if x.phase.Locked? || x.phase.Fenced? then {x.phase.source} else {}
  }

  /** A writer holds the shared lock from its entry until it closes. */
  predicate Shares(c: Writer) { !c.phase.Knocked? }

  predicate HeldBySome(w: World, s: Db) { exists a :: a in w.activators && s in Holds(w.activators[a]) }
  predicate SharedBySome(w: World, s: Db) { exists c :: c in w.writers && Shares(w.writers[c]) && w.writers[c].db == s }

  // ---------------------------------------------------------------- guards

  /** `Lease.check`, apart from expiry: no gate beside the database, and the durable record is
      this lease. An expired lease makes the process leave. */
  predicate LeaseOk(d: Disk, a: nat, x: Activator, s: Db)
  {
    && s in x.leases && s.dir !in d.gates
    && s in d.records && d.records[s] == Record(x.leases[s], Some(a))
  }

  predicate LeasesOk(d: Disk, a: nat, x: Activator)
  {
    forall s :: s in x.request.members ==> LeaseOk(d, a, x, s)
  }

  /** The retirement marker of a source, if any, carries this operation identity. */
  predicate RetirementAllows(d: Disk, s: Db, operation: string)
  {
    s in d.retired ==> d.retired[s].operation == operation
  }

  /** The reservation may be continued: it is ours and, if it was committed, so is the receipt. */
  predicate Continues(d: Disk, r: Request)
  {
    && r.dest in d.reservations && d.reservations[r.dest].request == r
    && (d.reservations[r.dest].activated ==> r.dest in d.receipts && d.receipts[r.dest] == r)
  }

  /** A directory left by an interrupted start of our own: nothing but perhaps the gate in it. */
  predicate Initializing(d: Disk, r: Request)
  {
    && r.dest in d.reservations && d.reservations[r.dest] == Reservation(r, false)
    && (forall s :: s in d.content ==> s.dir != r.dest)
    && (forall s :: s in d.records ==> s.dir != r.dest)
  }

  predicate ComponentsExist(d: Disk, r: Request)
  {
    forall s :: s in r.members ==> Component(r, s) in d.content
  }

  // ---------------------------------------------------------------- one activation's steps

  /** A step of one activation. */
  datatype Action =
    | Preflight
    | Acquire(s: Db)
    | ReadFence
    | PublishLease
    | Verify(s: Db)
    | Judge
    | Reserve
    | Retire(s: Db)
    | Open
    | RaiseGate
    | Announce
    | Copy(s: Db)
    | WriteReceipt
    | Commit
    | ClearPending
    | DropGate
    | Rehash(s: Db)
    | Adopt
    | Settle
    | Leave
    | Release(s: Db)

  /** A step of one writer connection. */
  datatype Use = Knock(db: Db) | Enter | Connect | Write(value: string) | Close

  datatype Event =
    | Begin(a: nat, request: Request)
    | Act(a: nat, action: Action)
    | Stop(a: nat)
    | Client(c: nat, use: Use)
    | LoseDir(d: Dir)
    | LoseReservation(d: Dir)

  /** A local step of activation `a` on the disk: the locks it may see are passed in. */
  datatype Local = Local(disk: Disk, x: Activator)

  /** An existing destination is refused unless it is this activation's own. */
  predicate Acceptable(d: Disk, r: Request)
  {
    r.dest in d.dirs ==>
      if r.dest in d.receipts then d.receipts[r.dest] == r
      else if r.dest in d.pending then d.pending[r.dest] == r
      else Initializing(d, r)
  }

  function PassPreflight(d: Disk, x: Activator): Option<Local>
  {
    if x.phase.Preparing? && (x.request.dest in d.reservations ==> Continues(d, x.request)) && Acceptable(d, x.request)
    then Some(Local(d, x.(phase := Locking))) else None
  }

  function TakeLock(w: World, a: nat, s: Db): Option<Local>
    requires a in w.activators
  {
    var x := w.activators[a];
    if x.phase.Locking? && s in x.request.members && s !in x.leases && !HeldBySome(w, s) && !SharedBySome(w, s)
    then Some(Local(w.disk, x.(phase := Locked(s)))) else None
  }

  /** Under the lock, the checks are made again and the durable fence is read. */
  function TakeFence(d: Disk, x: Activator): Option<Local>
  {
    if !x.phase.Locked? then None
    else
      var s := x.phase.source;
      if s.dir in d.gates || !RetirementAllows(d, s, x.request.operation) || s !in d.content then None
      else Some(Local(d, x.(phase := Fenced(s, FenceOf(d, s)))))
  }

  /** The record with the next fence replaces the old one; the last lease ends the locking. */
  function TakeLease(d: Disk, a: nat, x: Activator): Option<Local>
  {
    if !x.phase.Fenced? then None
    else
      var s, fence := x.phase.source, x.phase.fence + 1;
      var leases := x.leases[s := fence];
      var phase := if leases.Keys == x.request.members.Keys then Verifying else Locking;
      Some(Local(d.(records := d.records[s := Record(fence, Some(a))]), x.(phase := phase, leases := leases)))
  }

  function VerifySource(d: Disk, a: nat, x: Activator, s: Db): Option<Local>
  {
    if x.phase.Verifying? && s in x.request.members && LeaseOk(d, a, x, s)
       && s in d.content && d.content[s] == x.request.members[s].content
    then Some(Local(d, x.(done := x.done + {s}))) else None
  }

  /** A retired source without a reservation has lost it: replaying is refused. */
  function JudgeReplay(d: Disk, x: Activator): Option<Local>
  {
    if x.phase.Verifying? && x.done == x.request.members.Keys
       && (x.request.dest in d.reservations || forall s :: s in x.request.members ==> s !in d.retired)
    then Some(Local(d, x.(phase := Reserving, done := {}))) else None
  }

  function ReserveDest(d: Disk, x: Activator): Option<Local>
  {
    if !x.phase.Reserving? then None
    else
      var r, next := x.request, x.(phase := Retiring, done := {});
      if r.dest !in d.reservations then
        Some(Local(d.(reservations := d.reservations[r.dest := Reservation(r, false)]), next))
      else if Continues(d, r) then Some(Local(d, next))
      else None
  }

  function RetireSource(d: Disk, x: Activator, s: Db): Option<Local>
  {
    if !x.phase.Retiring? || s !in x.request.members then None
    else if s !in d.retired then
      Some(Local(d.(retired := d.retired[s := x.request]), x.(done := x.done + {s})))
    else if d.retired[s] == x.request then Some(Local(d, x.(done := x.done + {s})))
    else None
  }

  function OpenDest(d: Disk, a: nat, x: Activator): Option<Local>
  {
    var r := x.request;
    if !x.phase.Retiring? || x.done != r.members.Keys || !LeasesOk(d, a, x) then None
    else if r.dest !in d.dirs then
      Some(Local(d.(dirs := d.dirs + {r.dest}), x.(phase := Gating, done := {})))
    else if r.dest in d.receipts then
      if d.receipts[r.dest] == r && ComponentsExist(d, r)
      then Some(Local(d, x.(phase := if r.dest in d.gates then Rehashing else Settling, done := {})))
      else None
    else if r.dest !in d.pending && Initializing(d, r) then
      Some(Local(d, x.(phase := Gating, done := {})))
    else if r.dest in d.pending && d.pending[r.dest] == r then
      Some(Local(d, x.(phase := Copying, done := {})))
    else None
  }

  function PutGate(d: Disk, x: Activator): Option<Local>
  {
    if x.phase.Gating? && x.request.dest in d.dirs
    then Some(Local(d.(gates := d.gates + {x.request.dest}), x.(phase := Announcing))) else None
  }

  function PutPending(d: Disk, x: Activator): Option<Local>
  {
    if x.phase.Announcing? && x.request.dest in d.dirs && x.request.dest !in d.pending
    then Some(Local(d.(pending := d.pending[x.request.dest := x.request]), x.(phase := Copying))) else None
  }

  /** A component that is there already must be the same; an absent one is put in place. */
  function CopyMember(d: Disk, a: nat, x: Activator, s: Db): Option<Local>
  {
    if !x.phase.Copying? || s !in x.request.members || x.request.dest !in d.dirs || !LeasesOk(d, a, x) then None
    else
      var target, value := Component(x.request, s), x.request.members[s].content;
      var next := x.(done := x.done + {s});
      if target !in d.content then Some(Local(d.(content := d.content[target := value]), next))
      else if d.content[target] == value then Some(Local(d, next))
      else None
  }

  function PutReceipt(d: Disk, a: nat, x: Activator): Option<Local>
  {
    if x.phase.Copying? && x.done == x.request.members.Keys && x.request.dest in d.dirs && LeasesOk(d, a, x)
    then Some(Local(d.(receipts := d.receipts[x.request.dest := x.request]), x.(phase := Committing))) else None
  }

  function CommitReservation(d: Disk, x: Activator): Option<Local>
  {
    if x.phase.Committing?
    then Some(Local(d.(reservations := d.reservations[x.request.dest := Reservation(x.request, true)]),
                    x.(phase := Clearing)))
    else None
  }

  function RemovePending(d: Disk, x: Activator): Option<Local>
  {
    if x.phase.Clearing?
    then Some(Local(d.(pending := d.pending - {x.request.dest}), x.(phase := Ungating))) else None
  }

  /** A gate that is gone already counts as removed. */
  function RemoveGate(d: Disk, x: Activator): Option<Local>
  {
    if x.phase.Ungating? && x.request.dest in d.dirs
    then Some(Local(d.(gates := d.gates - {x.request.dest}), x.(phase := Leaving))) else None
  }

  function RehashMember(d: Disk, x: Activator, s: Db): Option<Local>
  {
    if x.phase.Rehashing? && s in x.request.members && Component(x.request, s) in d.content
       && d.content[Component(x.request, s)] == x.request.members[s].content
    then Some(Local(d, x.(done := x.done + {s}))) else None
  }

  /** The receipt that lies in the destination becomes the reservation. */
  function AdoptReceipt(d: Disk, a: nat, x: Activator): Option<Local>
  {
    if x.phase.Rehashing? && x.done == x.request.members.Keys && LeasesOk(d, a, x) && x.request.dest in d.receipts
    then Some(Local(
      d.(reservations := d.reservations[x.request.dest := Reservation(d.receipts[x.request.dest], true)]),
      x.(phase := Clearing)))
    else None
  }

  function SettleOpen(d: Disk, x: Activator): Option<Local>
  {
    if x.phase.Settling? && Continues(d, x.request) && d.reservations[x.request.dest].activated
    then Some(Local(d, x.(phase := Leaving))) else None
  }

  /** Failure and success both lead here; leases are then given back one by one. */
  function LeaveNow(d: Disk, x: Activator): Option<Local> { Some(Local(d, x.(phase := Leaving))) }

  function GiveBack(d: Disk, a: nat, x: Activator, s: Db): Option<Local>
  {
    if !x.phase.Leaving? || s !in x.leases then None
    else
      var records := if s in d.records && d.records[s] == Record(x.leases[s], Some(a))
                     then d.records[s := Record(x.leases[s], None)] else d.records;
      Some(Local(d.(records := records), x.(leases := x.leases - {s})))
  }

  function LocalStep(w: World, a: nat, action: Action): Option<Local>
    requires a in w.activators
  {
    var d, x := w.disk, w.activators[a];
    match action
    case Preflight => PassPreflight(d, x)
    case Acquire(s) => TakeLock(w, a, s)
    case ReadFence => TakeFence(d, x)
    case PublishLease => TakeLease(d, a, x)
    case Verify(s) => VerifySource(d, a, x, s)
    case Judge => JudgeReplay(d, x)
    case Reserve => ReserveDest(d, x)
    case Retire(s) => RetireSource(d, x, s)
    case Open => OpenDest(d, a, x)
    case RaiseGate => PutGate(d, x)
    case Announce => PutPending(d, x)
    case Copy(s) => CopyMember(d, a, x, s)
    case WriteReceipt => PutReceipt(d, a, x)
    case Commit => CommitReservation(d, x)
    case ClearPending => RemovePending(d, x)
    case DropGate => RemoveGate(d, x)
    case Rehash(s) => RehashMember(d, x, s)
    case Adopt => AdoptReceipt(d, a, x)
    case Settle => SettleOpen(d, x)
    case Leave => LeaveNow(d, x)
    case Release(s) => GiveBack(d, a, x, s)
  }

  /** History after a local step of an activation that was in state `x` on the disk `d`. */
  function Noted(h: History, action: Action, d: Disk, x: Activator): History
  {
    match action
    case Reserve => h.(reserved := h.reserved + {x.request})
    case Copy(_) => h.(placed := h.placed + {x.request})
    case Commit => h.(committed := h.committed + {x.request})
    case Adopt =>
      if x.request.dest in d.receipts then h.(committed := h.committed + {d.receipts[x.request.dest]}) else h
    case DropGate => h.(ungated := h.ungated + {x.request})
    case _ => h
  }

  // ---------------------------------------------------------------- everything else

  /** A directory can be lost unless something in it is locked or retired. */
  predicate MayLose(w: World, d: Dir)
  {
    && (forall a :: a in w.activators ==> forall s :: s in Holds(w.activators[a]) ==> s.dir != d)
    && (forall c :: c in w.writers && Shares(w.writers[c]) ==> w.writers[c].db.dir != d)
    && (forall s :: s in w.disk.retired ==> s.dir != d)
  }

  function WithoutDir(k: Disk, d: Dir): Disk
  {
    k.(dirs := k.dirs - {d},
       content := map s | s in k.content && s.dir != d :: k.content[s],
       records := map s | s in k.records && s.dir != d :: k.records[s],
       gates := k.gates - {d}, pending := k.pending - {d}, receipts := k.receipts - {d})
  }

  /** A writer looks for the gate and the retirement marker, takes the shared lock, looks for
      the marker again and only then opens the database. */
  function ClientStep(w: World, c: nat, use: Use): Option<World>
  {
    match use
    case Knock(db) =>
      if c in w.writers || db.dir in w.disk.gates || db in w.disk.retired then None
      else Some(w.(writers := w.writers[c := Writer(db, Knocked)]))
    case Enter =>
      if c !in w.writers || !w.writers[c].phase.Knocked? then None
      else
        var db := w.writers[c].db;
        if db in w.disk.retired || db.dir !in w.disk.dirs || HeldBySome(w, db) then None
        else Some(w.(writers := w.writers[c := Writer(db, Entered)]))
    case Connect =>
      if c !in w.writers || !w.writers[c].phase.Entered? then None
      else
        var db := w.writers[c].db;
        if db in w.disk.retired || db !in w.disk.content then None
        else Some(w.(writers := w.writers[c := Writer(db, Connected)]))
    case Write(value) =>
      if c !in w.writers || !w.writers[c].phase.Connected? || w.writers[c].db !in w.disk.content then None
      else Some(w.(disk := w.disk.(content := w.disk.content[w.writers[c].db := value])))
    case Close =>
      if c !in w.writers then None else Some(w.(writers := w.writers - {c}))
  }

  function ActivationStep(w: World, a: nat, action: Action): Option<World>
  {
    if a !in w.activators then None
    else
      match LocalStep(w, a, action)
      case None => None
      case Some(local) =>
        Some(w.(disk := local.disk, activators := w.activators[a := local.x],
                history := Noted(w.history, action, w.disk, w.activators[a])))
  }

  /** One step of the whole system, or nothing if the event cannot happen now. */
  function Next(w: World, e: Event): Option<World>
  {
    match e
    case Begin(a, r) =>
      if a in w.activators || r.members == map[] || !WellNamed(r) then None
      else Some(w.(activators := w.activators[a := Activator(r, Preparing, map[], {})]))
    case Act(a, action) => ActivationStep(w, a, action)
    case Stop(a) =>
      if a !in w.activators then None else Some(w.(activators := w.activators - {a}))
    case Client(c, use) => ClientStep(w, c, use)
    case LoseDir(d) =>
      if !MayLose(w, d) then None else Some(w.(disk := WithoutDir(w.disk, d),
                                            history := w.history.(lostDirs := w.history.lostDirs + {d})))
    case LoseReservation(d) =>
      Some(w.(disk := w.disk.(reservations := w.disk.reservations - {d}),
              history := w.history.(lostReservations := w.history.lostReservations + {d})))
  }

  // ---------------------------------------------------------------- runs

  /** The world after a sequence of events, if each of them could happen. */
  function After(w: World, run: seq<Event>): Option<World>
    decreases |run|
  {
    if run == [] then Some(w)
    else
      match After(w, run[..|run| - 1])
      case None => None
      case Some(v) => Next(v, run[|run| - 1])
  }

  /** A world before any activation: any databases, gates and fences. */
  predicate Initial(w: World)
  {
    && w.activators == map[] && w.writers == map[]
    && w.disk.retired == map[] && w.disk.pending == map[] && w.disk.receipts == map[] && w.disk.reservations == map[]
    && w.history == History({}, {}, {}, {}, {}, {})
    && (forall s :: s in w.disk.content ==> s.dir in w.disk.dirs) && w.disk.records.Keys <= w.disk.content.Keys
    && w.disk.gates <= w.disk.dirs
  }

  ghost predicate Reachable(w: World)
  {
    exists start, run :: Initial(start) && After(start, run) == Some(w)
  }
}
