/** Wherever an activation is interrupted, what it leaves behind can be continued by a retry of
    the same request, as long as its reservation is not lost and a committed destination is there. */
module HandoffResume {
  import opened StrictJson
  import opened HandoffProtocol
  import opened HandoffSafety
  import opened HandoffLaws
  import opened HandoffContents

  // ---------------------------------------------------------------- what can be continued

  predicate PartlyRight(d: Disk, r: Request)
  {
    forall s :: s in r.members && Component(r, s) in d.content ==> ComponentRight(d, r, s)
  }

  predicate AllRight(d: Disk, r: Request)
  {
    forall s :: s in r.members ==> ComponentRight(d, r, s)
  }

  /** The destination is reserved for the request and in one of the states that its retry
      accepts: not begun, partly copied under the gate, complete under the gate, or open. */
  predicate DestReady(d: Disk, r: Request)
  {
    && Continues(d, r) && (r.dest in d.pending ==> r.dest in d.gates)
    && if r.dest in d.receipts then
         && r.dest in d.dirs && d.receipts[r.dest] == r && ComponentsExist(d, r)
         && (if r.dest in d.gates then AllRight(d, r) else d.reservations[r.dest].activated)
       else if r.dest in d.pending then
         r.dest in d.dirs && d.pending[r.dest] == r && PartlyRight(d, r)
       else Initializing(d, r)
  }

  /** Where the reservation says that the activation was committed, its receipt is there. */
  predicate Backed(d: Disk, t: Dir) { t in d.reservations && d.reservations[t].activated ==> t in d.receipts }

  /** The same for a destination whose committed directory may have been lost. */
  predicate DestSound(d: Disk, r: Request)
  {
    && r.dest in d.reservations && d.reservations[r.dest].request == r && (r.dest in d.pending ==> r.dest in d.gates)
    && if r.dest in d.receipts then
         && r.dest in d.dirs && d.receipts[r.dest] == r && ComponentsExist(d, r)
         && (if r.dest in d.gates then AllRight(d, r) else d.reservations[r.dest].activated)
       else if r.dest in d.pending then
         r.dest in d.dirs && d.pending[r.dest] == r && PartlyRight(d, r)
       else Barren(d, r.dest)
  }

  predicate Barren(d: Disk, t: Dir)
  {
    (forall s :: s in d.content ==> s.dir != t) && (forall s :: s in d.records ==> s.dir != t)
  }

  lemma ReadyIsSound(d: Disk, r: Request)
    ensures DestReady(d, r) <==> DestSound(d, r) && Backed(d, r.dest)
  {
    hide ComponentsExist, AllRight, PartlyRight;
  }

  // ---------------------------------------------------------------- the invariant

  predicate Kept(h: History, t: Dir) { t !in h.lostReservations }

  /** The activation has made the destination or found it, and is at work there. */
  predicate Inside(p: Phase) { Within(p) || p.Rehashing? || p.Settling? }

  /** What the phase says about the destination. */
  predicate StandsRight(d: Disk, x: Activator)
  {
    var t, p := x.request.dest, x.phase;
    && (p.Gating? || p.Announcing? ==> t in d.dirs && t !in d.receipts && t !in d.pending)
    && (p.Copying? ==> t !in d.receipts && t in d.pending && d.pending[t] == x.request)
    && (p.Committing? || p.Clearing? || p.Ungating? || p.Rehashing? || p.Settling? ==> t in d.receipts)
    && (p.Clearing? || p.Ungating? ==> t in d.reservations && d.reservations[t].activated)
  }

  /** Past the preflight, before the reservation. */
  predicate Claiming(p: Phase) { !p.Preparing? && !p.Leaving? && !PastReserve(p) }

  /** Every file lies in a directory, and every document belongs to a reserved request. */
  predicate Filed(d: Disk, reserved: set<Request>)
  {
    && (forall s :: s in d.content ==> s.dir in d.dirs)
    && d.records.Keys <= d.content.Keys
    && d.receipts.Keys <= d.dirs && d.pending.Keys <= d.dirs
    && (forall t :: t in d.reservations ==> d.reservations[t].request in reserved && d.reservations[t].request.dest == t)
    && (forall t :: t in d.receipts ==> d.receipts[t] in reserved && d.receipts[t].dest == t)
    && (forall t :: t in d.pending ==> d.pending[t] in reserved && d.pending[t].dest == t)
  }

  predicate Unclaimed(w: World, x: Activator)
  {
    Claiming(x.phase) && Kept(w.history, x.request.dest) && x.request.dest !in w.disk.reservations ==>
      x.request.dest !in w.disk.dirs
  }

  predicate Standing(w: World, x: Activator)
  {
    PastReserve(x.phase) && Kept(w.history, x.request.dest) ==>
      if x.request.dest in w.disk.dirs then StandsRight(w.disk, x)
      else Inside(x.phase) ==> x.request.dest in w.history.lostDirs
  }

  predicate ReadyIfKept(w: World, r: Request)
  {
    Kept(w.history, r.dest) && WellNamed(r) ==>
      DestSound(w.disk, r) && (Backed(w.disk, r.dest) || r.dest in w.history.lostDirs)
  }

  ghost predicate Resumable(w: World)
  {
    && Filed(w.disk, w.history.reserved)
    && (forall a :: a in w.activators ==> Unclaimed(w, w.activators[a]) && Standing(w, w.activators[a]))
    && (forall r :: r in w.history.reserved ==> ReadyIfKept(w, r))
  }

  // ---------------------------------------------------------------- an activation's own destination

  /** The phases in which the gate must be up. */
  predicate Gated(p: Phase)
  {
    p.Announcing? || p.Copying? || p.Committing? || p.Clearing? || p.Ungating? || p.Rehashing?
  }

  /** What an activation may rely on while its reservation is not lost. */
  ghost predicate DestRight(d: Disk, x: Activator)
  {
    var r := x.request;
    && (PastReserve(x.phase) ==> r.dest in d.reservations && d.reservations[r.dest].request == r)
    && (Gated(x.phase) && r.dest in d.dirs ==> r.dest in d.gates)
    && (x.phase.Gating? && r.dest in d.dirs ==> x.done == {})
    && (x.phase.Ungating? ==> r.dest !in d.pending)
    && (x.phase.Rehashing? && r.dest in d.receipts ==> d.receipts[r.dest] == r)
    && (r.dest in d.dirs ==> ComponentsRight(d, x))
  }

  /** A request that was reserved owns the reservation as long as that is not lost. */
  lemma OwnsKept(w: World, r: Request)
    requires ReservedFirst(w) && r in w.history.reserved && Kept(w.history, r.dest)
    ensures r.dest in w.disk.reservations && w.disk.reservations[r.dest].request == r
  {
    assert Owns(w, r);
  }

  lemma KeptRight(w: World, a: nat)
    requires Calm(w) && Resumable(w) && ReservedFirst(w)
    requires a in w.activators && PastReserve(w.activators[a].phase) && Kept(w.history, w.activators[a].request.dest)
    ensures DestRight(w.disk, w.activators[a])
  {
    var d, x := w.disk, w.activators[a];
    var r, t := x.request, x.request.dest;
    assert r in w.history.reserved && (t in d.receipts ==> d.receipts[t] in w.history.reserved && d.receipts[t].dest == t)
      && (t in d.pending ==> d.pending[t] in w.history.reserved && d.pending[t].dest == t) by {
      hide Calm, Owns, Unclaimed, Standing, ReadyIfKept;
    }
    OwnsKept(w, r);
    if t in d.receipts { OwnsKept(w, d.receipts[t]); }
    StandOf(w, a);
    PlacedOf(w, a);
    CalmParts(w);
    hide Calm, Resumable, ReservedFirst, Filed, Unclaimed, Exposed, Grounded, Apart;
    if x.phase.Rehashing? {
      RehashingRight(d, w.writers, w.activators, x);
    } else {
      hide Checked;
      InsideRight(d, w.writers, x);
    }
  }

  lemma RehashingRight(d: Disk, writers: map<nat, Writer>, activators: map<nat, Activator>, x: Activator)
    requires x.phase.Rehashing? && Checked(d, writers, activators, x)
    requires x.request.dest in d.receipts ==> d.receipts[x.request.dest] == x.request
    requires x.request.dest in d.dirs ==> x.request.dest in d.receipts
    requires x.request.dest in d.reservations && d.reservations[x.request.dest].request == x.request
    ensures DestRight(d, x)
  {
    hide Exposed, ComponentsRight;
    forall s | s in x.request.members ensures Names(x.request, Component(x.request, s)) { }
  }

  lemma InsideRight(d: Disk, writers: map<nat, Writer>, x: Activator)
    requires PastReserve(x.phase) && !x.phase.Rehashing? && Placed(d, writers, x)
    requires x.request.dest in d.reservations && d.reservations[x.request.dest].request == x.request
    requires x.request.dest !in d.dirs ==> x.request.dest !in d.pending
    ensures DestRight(d, x)
  {
    hide Exposed;
    if !Within(x.phase) || x.phase.Gating? { assert Compared(x) == {}; }
    hide ComponentRight;
  }

  /** After its step an activation may rely on the same. */
  ghost predicate Steady(d: Disk, x: Activator, next: Local)
  {
    DestRight(next.disk, next.x) && next.x.request == x.request
    && (x.request.dest in next.disk.pending ==> x.request.dest in next.disk.gates)
  }

  lemma StillRight(d: Disk, x: Activator, next: Local)
    requires DestRight(d, x) && next.x.request == x.request && Compared(next.x) <= Compared(x)
    requires x.request.dest in next.disk.dirs ==> x.request.dest in d.dirs || Compared(next.x) == {}
    requires forall s :: s in d.content ==> s in next.disk.content && next.disk.content[s] == d.content[s]
    ensures x.request.dest in next.disk.dirs ==> ComponentsRight(next.disk, next.x)
  {
    if x.request.dest in next.disk.dirs && x.request.dest in d.dirs { Carried(d, x, next.disk, next.x); }
  }

  lemma OpenSteady(d: Disk, a: nat, x: Activator)
    requires DestRight(d, x) && (x.request.dest in d.pending ==> x.request.dest in d.gates)
    ensures OpenDest(d, a, x).Some? ==> Steady(d, x, OpenDest(d, a, x).value)
  {
    hide LeasesOk, ComponentsExist, Initializing, Acceptable, ComponentsRight;
    if OpenDest(d, a, x).Some? { StillRight(d, x, OpenDest(d, a, x).value); }
  }

  lemma CopySteady(d: Disk, a: nat, x: Activator, s: Db)
    requires DestRight(d, x) && (x.request.dest in d.pending ==> x.request.dest in d.gates)
    ensures CopyMember(d, a, x, s).Some? ==> Steady(d, x, CopyMember(d, a, x, s).value)
  {
    hide LeasesOk;
    if CopyMember(d, a, x, s).Some? {
      var next := CopyMember(d, a, x, s).value;
      CopyCarries(d, a, x, s);
      hide ComponentsRight;
    }
  }

  lemma CopyCarries(d: Disk, a: nat, x: Activator, s: Db)
    requires DestRight(d, x) && CopyMember(d, a, x, s).Some?
    ensures (x.request.dest in d.dirs ==> ComponentsRight(CopyMember(d, a, x, s).value.disk, CopyMember(d, a, x, s).value.x))
  {
    hide LeasesOk;
    var next := CopyMember(d, a, x, s).value;
    StillRight(d, x, next.(x := x));
    assert ComponentRight(next.disk, x.request, s);
  }

  lemma GateSteady(d: Disk, a: nat, x: Activator)
    requires DestRight(d, x) && (x.request.dest in d.pending ==> x.request.dest in d.gates)
    ensures PutGate(d, x).Some? ==> Steady(d, x, PutGate(d, x).value)
  {
    hide ComponentsRight;
    if PutGate(d, x).Some? { StillRight(d, x, PutGate(d, x).value); }
  }

  lemma PendingSteady(d: Disk, a: nat, x: Activator)
    requires DestRight(d, x) && (x.request.dest in d.pending ==> x.request.dest in d.gates)
    ensures PutPending(d, x).Some? ==> Steady(d, x, PutPending(d, x).value)
  {
    hide ComponentsRight;
    if PutPending(d, x).Some? { StillRight(d, x, PutPending(d, x).value); }
  }

  lemma ReceiptSteady(d: Disk, a: nat, x: Activator)
    requires DestRight(d, x) && (x.request.dest in d.pending ==> x.request.dest in d.gates)
    ensures PutReceipt(d, a, x).Some? ==> Steady(d, x, PutReceipt(d, a, x).value)
  {
    hide LeasesOk, ComponentsRight;
    if PutReceipt(d, a, x).Some? { StillRight(d, x, PutReceipt(d, a, x).value); }
  }

  lemma CommitSteady(d: Disk, a: nat, x: Activator)
    requires DestRight(d, x) && (x.request.dest in d.pending ==> x.request.dest in d.gates)
    ensures CommitReservation(d, x).Some? ==> Steady(d, x, CommitReservation(d, x).value)
  {
    hide ComponentsRight;
    if CommitReservation(d, x).Some? { StillRight(d, x, CommitReservation(d, x).value); }
  }

  lemma ClearSteady(d: Disk, a: nat, x: Activator)
    requires DestRight(d, x) && (x.request.dest in d.pending ==> x.request.dest in d.gates)
    ensures RemovePending(d, x).Some? ==> Steady(d, x, RemovePending(d, x).value)
  {
    hide ComponentsRight;
    if RemovePending(d, x).Some? { StillRight(d, x, RemovePending(d, x).value); }
  }

  lemma UngateSteady(d: Disk, a: nat, x: Activator)
    requires DestRight(d, x) && (x.request.dest in d.pending ==> x.request.dest in d.gates)
    ensures RemoveGate(d, x).Some? ==> Steady(d, x, RemoveGate(d, x).value)
  {
    hide ComponentsRight;
    if RemoveGate(d, x).Some? { StillRight(d, x, RemoveGate(d, x).value); }
  }

  lemma AdoptSteady(d: Disk, a: nat, x: Activator)
    requires DestRight(d, x) && (x.request.dest in d.pending ==> x.request.dest in d.gates)
    ensures AdoptReceipt(d, a, x).Some? ==> Steady(d, x, AdoptReceipt(d, a, x).value)
  {
    hide LeasesOk, ComponentsRight;
    if AdoptReceipt(d, a, x).Some? { StillRight(d, x, AdoptReceipt(d, a, x).value); }
  }

  lemma SmallSteady(d: Disk, a: nat, x: Activator, s: Db)
    requires DestRight(d, x) && PastReserve(x.phase) && (x.request.dest in d.pending ==> x.request.dest in d.gates)
    ensures RetireSource(d, x, s).Some? ==> Steady(d, x, RetireSource(d, x, s).value)
    ensures SettleOpen(d, x).Some? ==> Steady(d, x, SettleOpen(d, x).value)
    ensures Steady(d, x, LeaveNow(d, x).value)
  {
    hide Continues, ComponentsRight;
    if RetireSource(d, x, s).Some? { StillRight(d, x, RetireSource(d, x, s).value); }
    if SettleOpen(d, x).Some? { StillRight(d, x, SettleOpen(d, x).value); }
    StillRight(d, x, LeaveNow(d, x).value);
  }

  lemma RehashSteady(d: Disk, x: Activator, s: Db)
    requires DestRight(d, x) && PastReserve(x.phase) && (x.request.dest in d.pending ==> x.request.dest in d.gates)
    ensures RehashMember(d, x, s).Some? ==> Steady(d, x, RehashMember(d, x, s).value)
  {
    if RehashMember(d, x, s).Some? {
      assert ComponentRight(d, x.request, s);
    }
  }

  lemma ActionIsSteady(w: World, a: nat, action: Action)
    requires a in w.activators && DestRight(w.disk, w.activators[a]) && PastReserve(w.activators[a].phase)
    requires w.activators[a].request.dest in w.disk.pending ==> w.activators[a].request.dest in w.disk.gates
    ensures var r := LocalStep(w, a, action); r.Some? ==> Steady(w.disk, w.activators[a], r.value)
  {
    var d, x := w.disk, w.activators[a];
    hide DestRight, Steady, OpenDest, PutGate, PutPending, PutReceipt, CommitReservation, RemovePending, RemoveGate,
         AdoptReceipt, CopyMember, RetireSource, RehashMember, SettleOpen, LeaveNow;
    match action
    case Retire(s) => SmallSteady(d, a, x, s);
    case Open => OpenSteady(d, a, x);
    case RaiseGate => GateSteady(d, a, x);
    case Announce => PendingSteady(d, a, x);
    case Copy(s) => CopySteady(d, a, x, s);
    case WriteReceipt => ReceiptSteady(d, a, x);
    case Commit => CommitSteady(d, a, x);
    case ClearPending => ClearSteady(d, a, x);
    case DropGate => UngateSteady(d, a, x);
    case Rehash(s) => RehashSteady(d, x, s);
    case Adopt => AdoptSteady(d, a, x);
    case Settle => SmallSteady(d, a, x, Db("", ""));
    case Leave => SmallSteady(d, a, x, Db("", ""));
    case Release(s) =>
    case _ =>
  }

  /** What an activation that rests on its reservation may assume about its destination. */
  ghost predicate AtWork(d: Disk, x: Activator)
  {
    && PastReserve(x.phase) && DestRight(d, x) && StandsRight(d, x)
    && (WellNamed(x.request) ==> DestReady(d, x.request))
    && (x.request.dest in d.dirs <== x.request.dest in d.receipts || x.request.dest in d.pending)
  }

  /** The same while the directory may be lost. */
  ghost predicate Holding(d: Disk, x: Activator)
  {
    && PastReserve(x.phase) && DestRight(d, x) && (x.request.dest in d.dirs ==> StandsRight(d, x))
    && (WellNamed(x.request) ==> DestSound(d, x.request))
    && (x.request.dest !in d.dirs ==>
          x.request.dest !in d.receipts && x.request.dest !in d.pending && Barren(d, x.request.dest))
  }

  /** Nobody finds himself inside a directory that does not exist unless it was lost under him, and
      only such an activation commits without its receipt. */
  ghost predicate Advanced(d: Disk, x: Activator, next: Local)
  {
    var t := x.request.dest;
    && (PastReserve(next.x.phase) && t in next.disk.dirs ==> StandsRight(next.disk, next.x))
    && (WellNamed(x.request) ==> DestSound(next.disk, x.request))
    && (t !in next.disk.dirs && Inside(next.x.phase) ==> t !in d.dirs && Inside(x.phase))
    && (Backed(d, t) && (t in d.dirs || !Inside(x.phase)) ==> Backed(next.disk, t))
    && (t in d.dirs ==> t in next.disk.dirs)
  }

  lemma RetireAdvances(d: Disk, x: Activator, s: Db)
    requires Holding(d, x)
    ensures RetireSource(d, x, s).Some? ==> Advanced(d, x, RetireSource(d, x, s).value)
  {
    hide DestRight, WellNamed;
    if RetireSource(d, x, s).Some? { ReadySame(d, RetireSource(d, x, s).value.disk, x.request); }
  }

  /** The state of a destination depends on nothing else. */
  lemma ReadySame(d: Disk, e: Disk, r: Request)
    requires e.dirs == d.dirs && e.gates == d.gates && e.pending == d.pending && e.receipts == d.receipts
    requires e.content == d.content && e.records == d.records && e.reservations == d.reservations
    ensures DestSound(d, r) ==> DestSound(e, r)
  {
    assert AllRight(d, r) ==> AllRight(e, r) by {
      forall s | s in r.members ensures ComponentRight(d, r, s) ==> ComponentRight(e, r, s) { }
    }
    assert PartlyRight(d, r) ==> PartlyRight(e, r) by {
      forall s | s in r.members ensures ComponentRight(d, r, s) ==> ComponentRight(e, r, s) { }
    }
  }

  lemma OpenAdvances(d: Disk, a: nat, x: Activator)
    requires Holding(d, x)
    ensures OpenDest(d, a, x).Some? ==> Advanced(d, x, OpenDest(d, a, x).value)
  {
    hide DestRight, WellNamed, LeasesOk;
    if OpenDest(d, a, x).Some? && x.request.dest in d.dirs {
      hide DestSound;
    }
  }

  lemma GateAdvances(d: Disk, x: Activator)
    requires Holding(d, x)
    ensures PutGate(d, x).Some? ==> Advanced(d, x, PutGate(d, x).value)
    ensures PutPending(d, x).Some? ==> Advanced(d, x, PutPending(d, x).value)
  {
    hide WellNamed, ComponentsRight;
  }

  lemma CopyAdvances(d: Disk, a: nat, x: Activator, s: Db)
    requires Holding(d, x)
    ensures CopyMember(d, a, x, s).Some? ==> Advanced(d, x, CopyMember(d, a, x, s).value)
  {
    hide LeasesOk;
  }

  lemma ReceiptAdvances(d: Disk, a: nat, x: Activator)
    requires Holding(d, x)
    ensures PutReceipt(d, a, x).Some? ==> Advanced(d, x, PutReceipt(d, a, x).value)
  {
    hide LeasesOk, WellNamed;
    if PutReceipt(d, a, x).Some? {
      var e := PutReceipt(d, a, x).value.disk;
      forall s | s in x.request.members ensures ComponentRight(e, x.request, s) {
        assert s in Compared(x);
        assert ComponentRight(d, x.request, s);
      }
      assert AllRight(e, x.request) && ComponentsExist(e, x.request);
    }
  }

  lemma CommitAdvances(d: Disk, a: nat, x: Activator)
    requires Holding(d, x)
    ensures CommitReservation(d, x).Some? ==> Advanced(d, x, CommitReservation(d, x).value)
    ensures AdoptReceipt(d, a, x).Some? ==> Advanced(d, x, AdoptReceipt(d, a, x).value)
  {
    hide LeasesOk, WellNamed, ComponentsRight;
  }

  lemma ClearAdvances(d: Disk, x: Activator)
    requires Holding(d, x)
    ensures RemovePending(d, x).Some? ==> Advanced(d, x, RemovePending(d, x).value)
    ensures RemoveGate(d, x).Some? ==> Advanced(d, x, RemoveGate(d, x).value)
  {
    hide WellNamed, ComponentsRight;
  }

  lemma RestAdvances(d: Disk, x: Activator, s: Db)
    requires Holding(d, x)
    ensures RehashMember(d, x, s).Some? ==> Advanced(d, x, RehashMember(d, x, s).value)
    ensures SettleOpen(d, x).Some? ==> Advanced(d, x, SettleOpen(d, x).value)
    ensures Advanced(d, x, LeaveNow(d, x).value)
  {
    hide WellNamed, DestRight, DestSound;
  }

  lemma ActionAdvances(w: World, a: nat, action: Action)
    requires a in w.activators && Holding(w.disk, w.activators[a]) && LocalStep(w, a, action).Some?
    ensures Advanced(w.disk, w.activators[a], LocalStep(w, a, action).value)
  {
    var d, x := w.disk, w.activators[a];
    assert PastReserve(x.phase);
    hide Holding, Advanced, OpenDest, PutGate, PutPending, PutReceipt, CommitReservation, RemovePending, RemoveGate,
         AdoptReceipt, CopyMember, RetireSource, RehashMember, SettleOpen, LeaveNow;
    match action
    case Retire(s) => RetireAdvances(d, x, s);
    case Open => OpenAdvances(d, a, x);
    case RaiseGate => GateAdvances(d, x);
    case Announce => GateAdvances(d, x);
    case Copy(s) => CopyAdvances(d, a, x, s);
    case WriteReceipt => ReceiptAdvances(d, a, x);
    case Commit => CommitAdvances(d, a, x);
    case Adopt => CommitAdvances(d, a, x);
    case ClearPending => ClearAdvances(d, x);
    case DropGate => ClearAdvances(d, x);
    case Rehash(s) => RestAdvances(d, x, s);
    case Settle => RestAdvances(d, x, Db("", ""));
    case Leave => RestAdvances(d, x, Db("", ""));
    case _ =>
  }

  /** An activation at work in its directory stays so, and what it leaves can be continued. */
  lemma WorkAdvances(w: World, a: nat, action: Action)
    requires a in w.activators && AtWork(w.disk, w.activators[a]) && WellNamed(w.activators[a].request)
    requires LocalStep(w, a, action).Some?
    ensures var x, next := w.activators[a], LocalStep(w, a, action).value;
            DestReady(next.disk, x.request) && (PastReserve(next.x.phase) ==> StandsRight(next.disk, next.x))
  {
    var x, next := w.activators[a], LocalStep(w, a, action).value;
    WorkHolds(w.disk, x);
    ActionAdvances(w, a, action);
    ReadyIsSound(w.disk, x.request);
    ReadyIsSound(next.disk, x.request);
    assert next.x.request == x.request by { hide AtWork; RequestStays(w, a, action); }
    hide LocalStep, DestSound, DestReady, DestRight, Backed, Barren, WellNamed, AtWork, Holding;
  }

  lemma RequestStays(w: World, a: nat, action: Action)
    requires a in w.activators && LocalStep(w, a, action).Some?
    ensures LocalStep(w, a, action).value.x.request == w.activators[a].request
  {
    hide LeasesOk, ComponentsExist, Initializing, Acceptable, Continues, HeldBySome, SharedBySome, RetirementAllows;
  }

  lemma WorkHolds(d: Disk, x: Activator)
    requires AtWork(d, x) && WellNamed(x.request)
    ensures Holding(d, x) && Backed(d, x.request.dest) && (Inside(x.phase) ==> x.request.dest in d.dirs)
  {
    ReadyIsSound(d, x.request);
    hide DestRight, WellNamed, ComponentsExist, AllRight, PartlyRight;
  }

  // ---------------------------------------------------------------- an activation's step

  /** The step changed nothing about a destination other than records of its databases. */
  predicate SameDest(d: Disk, e: Disk, t: Dir)
  {
    && (t in d.dirs <==> t in e.dirs) && (t in d.gates <==> t in e.gates)
    && (t in d.receipts <==> t in e.receipts) && (t in d.receipts ==> e.receipts[t] == d.receipts[t])
    && (t in d.pending <==> t in e.pending) && (t in d.pending ==> e.pending[t] == d.pending[t])
    && (t in d.reservations ==> t in e.reservations && e.reservations[t] == d.reservations[t])
    && (forall s :: s in d.content && s.dir == t ==> s in e.content && e.content[s] == d.content[s])
    && (forall s :: s in e.content && s.dir == t ==> s in d.content)
    && (forall s :: s in e.records && s.dir == t ==> s in d.records || s in d.content)
  }

  lemma SameDestReady(d: Disk, e: Disk, r: Request)
    requires SameDest(d, e, r.dest) && DestReady(d, r)
    ensures DestReady(e, r)
  {
    if r.dest in d.receipts {
      if r.dest in d.gates {
        forall s | s in r.members ensures ComponentRight(e, r, s) { assert ComponentRight(d, r, s); }
      }
    } else if r.dest in d.pending {
      forall s | s in r.members && Component(r, s) in e.content ensures ComponentRight(e, r, s) {
        assert ComponentRight(d, r, s);
      }
    }
  }

  lemma SameDestSound(d: Disk, e: Disk, r: Request)
    requires SameDest(d, e, r.dest) && DestSound(d, r)
    ensures DestSound(e, r) && (Backed(d, r.dest) ==> Backed(e, r.dest))
  {
    if r.dest in d.receipts {
      if r.dest in d.gates {
        forall s | s in r.members ensures ComponentRight(e, r, s) { assert ComponentRight(d, r, s); }
      }
    } else if r.dest in d.pending {
      forall s | s in r.members && Component(r, s) in e.content ensures ComponentRight(e, r, s) {
        assert ComponentRight(d, r, s);
      }
    }
  }

  lemma SameDestStands(d: Disk, e: Disk, x: Activator)
    requires SameDest(d, e, x.request.dest) && StandsRight(d, x)
    ensures StandsRight(e, x)
  {
  }

  /** Files stay filed. */
  lemma FiledOpen(d: Disk, a: nat, x: Activator, q: set<Request>)
    requires Filed(d, q)
    ensures OpenDest(d, a, x).Some? ==> Filed(OpenDest(d, a, x).value.disk, q)
  {
    hide LeasesOk, ComponentsExist, Initializing;
  }

  lemma FiledClear(d: Disk, x: Activator, q: set<Request>)
    requires Filed(d, q)
    ensures PutGate(d, x).Some? ==> Filed(PutGate(d, x).value.disk, q)
    ensures RemovePending(d, x).Some? ==> Filed(RemovePending(d, x).value.disk, q)
    ensures RemoveGate(d, x).Some? ==> Filed(RemoveGate(d, x).value.disk, q)
  {
  }

  lemma FiledCopy(d: Disk, a: nat, x: Activator, s: Db, q: set<Request>)
    requires Filed(d, q)
    ensures CopyMember(d, a, x, s).Some? ==> Filed(CopyMember(d, a, x, s).value.disk, q)
    ensures RetireSource(d, x, s).Some? ==> Filed(RetireSource(d, x, s).value.disk, q)
    ensures RehashMember(d, x, s).Some? ==> Filed(RehashMember(d, x, s).value.disk, q)
  {
    hide LeasesOk;
  }

  lemma FiledPublish(d: Disk, a: nat, x: Activator, q: set<Request>)
    requires Filed(d, q) && x.request in q
    ensures PutPending(d, x).Some? ==> Filed(PutPending(d, x).value.disk, q)
    ensures PutReceipt(d, a, x).Some? ==> Filed(PutReceipt(d, a, x).value.disk, q)
  {
    hide LeasesOk;
  }

  lemma FiledCommit(d: Disk, a: nat, x: Activator, q: set<Request>)
    requires Filed(d, q) && x.request in q
    ensures CommitReservation(d, x).Some? ==> Filed(CommitReservation(d, x).value.disk, q)
    ensures AdoptReceipt(d, a, x).Some? ==> Filed(AdoptReceipt(d, a, x).value.disk, q)
  {
    hide LeasesOk;
  }

  lemma FiledLate(w: World, a: nat, action: Action)
    requires a in w.activators && PastReserve(w.activators[a].phase) && w.activators[a].request in w.history.reserved
    requires Filed(w.disk, w.history.reserved) && LocalStep(w, a, action).Some?
    ensures Filed(LocalStep(w, a, action).value.disk, w.history.reserved)
    ensures LocalStep(w, a, action).value.disk.records == w.disk.records
    ensures Noted(w.history, action, w.disk, w.activators[a]).reserved == w.history.reserved
  {
    var d, x, q := w.disk, w.activators[a], w.history.reserved;
    LateRecords(w, a, action);
    hide *;
    FiledOpen(d, a, x, q);
    FiledClear(d, x, q);
    FiledPublish(d, a, x, q);
    FiledCommit(d, a, x, q);
    LateStep(w, a, action);
    match action
    case Retire(s) => FiledCopy(d, a, x, s, q);
    case Copy(s) => FiledCopy(d, a, x, s, q);
    case Rehash(s) => FiledCopy(d, a, x, s, q);
    case _ =>
  }

  lemma LateRecords(w: World, a: nat, action: Action)
    requires a in w.activators && PastReserve(w.activators[a].phase) && LocalStep(w, a, action).Some?
    ensures LocalStep(w, a, action).value.disk.records == w.disk.records
    ensures Noted(w.history, action, w.disk, w.activators[a]).reserved == w.history.reserved
  {
    hide LeasesOk, ComponentsExist, Initializing, Acceptable, Continues, HeldBySome, SharedBySome, RetirementAllows;
  }

  /** The functions behind the steps that are possible after the reservation. */
  lemma LateStep(w: World, a: nat, action: Action)
    requires a in w.activators && PastReserve(w.activators[a].phase) && LocalStep(w, a, action).Some?
    ensures var d, x := w.disk, w.activators[a];
            LocalStep(w, a, action) ==
              match action
              case Retire(s) => RetireSource(d, x, s)
              case Open => OpenDest(d, a, x)
              case RaiseGate => PutGate(d, x)
              case Announce => PutPending(d, x)
              case Copy(s) => CopyMember(d, a, x, s)
              case WriteReceipt => PutReceipt(d, a, x)
              case Commit => CommitReservation(d, x)
              case ClearPending => RemovePending(d, x)
              case DropGate => RemoveGate(d, x)
              case Rehash(s) => RehashMember(d, x, s)
              case Adopt => AdoptReceipt(d, a, x)
              case _ => Some(Local(d, LocalStep(w, a, action).value.x))
  {
    hide LeasesOk, ComponentsExist, Initializing, Acceptable, Continues, HeldBySome, SharedBySome, RetirementAllows,
         OpenDest, RetireSource, CopyMember, PutReceipt, CommitReservation, RehashMember, AdoptReceipt, PutGate, PutPending,
         RemovePending, RemoveGate;
  }

  /** Before its reservation an activation only adds one. */
  ghost predicate Early(d: Disk, x: Activator, next: Local)
  {
    var e := next.disk;
    && e.dirs == d.dirs && e.gates == d.gates && e.pending == d.pending && e.receipts == d.receipts
    && e.content == d.content
    && (forall q :: q in d.reservations ==> q in e.reservations && e.reservations[q] == d.reservations[q])
    && next.x.request == x.request
  }

  lemma EarlyStep(w: World, a: nat, action: Action)
    requires a in w.activators && !PastReserve(w.activators[a].phase) && LocalStep(w, a, action).Some?
    ensures Early(w.disk, w.activators[a], LocalStep(w, a, action).value)
  {
    hide LeasesOk, ComponentsExist, Initializing, Acceptable, Continues, HeldBySome, SharedBySome, RetirementAllows;
  }

  /** Steps before the reservation publish nothing but leases and, last, the reservation. */
  lemma FiledEarly(w: World, a: nat, action: Action)
    requires a in w.activators && !PastReserve(w.activators[a].phase) && LeasesRight(w.disk, a, w.activators[a])
    requires Filed(w.disk, w.history.reserved) && LocalStep(w, a, action).Some?
    ensures var d, e, x := w.disk, LocalStep(w, a, action).value.disk, w.activators[a];
            && Filed(e, Noted(w.history, action, d, x).reserved)
            && (forall s :: s in e.records ==> s in d.records || s in d.content)
            && (action.Reserve? || e.reservations == d.reservations)
  {
    var d, x, q := w.disk, w.activators[a], w.history.reserved;
    EarlyDisk(w, a, action);
    EarlyRecords(w, a, action);
    hide Noted, Filed, LeasesRight;
    match action
    case Reserve => FiledReserve(d, x, q); NotedReserve(w.history, d, x);
    case PublishLease => FiledLease(d, a, x, q);
    case Release(s) => FiledRelease(d, a, x, s, q);
    case _ => hide *;
  }

  lemma NotedReserve(h: History, d: Disk, x: Activator)
    ensures Noted(h, Reserve, d, x).reserved == h.reserved + {x.request}
  {
  }

  lemma FiledReserve(d: Disk, x: Activator, q: set<Request>)
    requires Filed(d, q)
    ensures ReserveDest(d, x).Some? ==> Filed(ReserveDest(d, x).value.disk, q + {x.request})
  {
    hide Continues;
  }

  lemma FiledLease(d: Disk, a: nat, x: Activator, q: set<Request>)
    requires Filed(d, q) && LeasesRight(d, a, x)
    ensures TakeLease(d, a, x).Some? ==> Filed(TakeLease(d, a, x).value.disk, q)
  {
  }

  lemma FiledRelease(d: Disk, a: nat, x: Activator, s: Db, q: set<Request>)
    requires Filed(d, q)
    ensures GiveBack(d, a, x, s).Some? ==> Filed(GiveBack(d, a, x, s).value.disk, q)
  {
  }

  lemma EarlyDisk(w: World, a: nat, action: Action)
    requires a in w.activators && !PastReserve(w.activators[a].phase) && LocalStep(w, a, action).Some?
    ensures !action.Reserve? && !action.PublishLease? && !action.Release? ==> LocalStep(w, a, action).value.disk == w.disk
    ensures !action.Reserve? ==> Noted(w.history, action, w.disk, w.activators[a]).reserved == w.history.reserved
  {
    hide LeasesOk, ComponentsExist, Initializing, Acceptable, Continues, HeldBySome, SharedBySome, RetirementAllows;
  }

  // ---------------------------------------------------------------- every orderly step

  lemma LateSame(w: World, a: nat, action: Action, t: Dir)
    requires a in w.activators && PastReserve(w.activators[a].phase) && LocalStep(w, a, action).Some?
    requires t != w.activators[a].request.dest
    ensures SameDest(w.disk, LocalStep(w, a, action).value.disk, t)
  {
    ActionTouches(w, a, action);
    LateRecords(w, a, action);
    ReservationsChange(w, a, action);
    hide LocalStep, Names;
  }

  /** The destination of an activation that rests on its reservation belongs to its request alone. */
  lemma LateOwner(w: World, a: nat, r: Request)
    requires ReservedFirst(w) && a in w.activators && PastReserve(w.activators[a].phase)
    requires r in w.history.reserved && r.dest == w.activators[a].request.dest && Kept(w.history, r.dest)
    ensures r == w.activators[a].request
  {
    assert Owns(w, r) && Owns(w, w.activators[a].request);
  }

  lemma LateWork(w: World, a: nat)
    requires Calm(w) && Resumable(w) && ReservedFirst(w) && a in w.activators && PastReserve(w.activators[a].phase)
    requires Kept(w.history, w.activators[a].request.dest)
    ensures Holding(w.disk, w.activators[a])
  {
    hide DestSound, DestRight, StandsRight, WellNamed, Owns, Backed;
    var x := w.activators[a];
    assert Standing(w, x) && ReadyIfKept(w, x.request);
    KeptRight(w, a);
  }

  lemma ReadyOf(w: World, r: Request)
    requires Resumable(w) && r in w.history.reserved
    ensures ReadyIfKept(w, r)
  {
    hide ReadyIfKept, Filed, Unclaimed, Standing;
  }

  lemma StandOf(w: World, a: nat)
    requires Resumable(w) && a in w.activators
    ensures Unclaimed(w, w.activators[a]) && Standing(w, w.activators[a]) && Filed(w.disk, w.history.reserved)
  {
    hide ReadyIfKept, Filed, Unclaimed, Standing;
  }

  lemma LateReady(w: World, a: nat, action: Action, r: Request)
    requires Inv(w) && Calm(w) && Resumable(w) && ReservedFirst(w)
    requires ActivationStep(w, a, action).Some? && PastReserve(w.activators[a].phase) && r in w.history.reserved
    ensures ReadyIfKept(ActivationStep(w, a, action).value, r)
  {
    hide Inv, Calm, Resumable, ReservedFirst, LocalStep, DestSound, WellNamed, Noted, Backed, Holding, StandsRight;
    var v, x := ActivationStep(w, a, action).value, w.activators[a];
    HistoryKept(w, a, action);
    ReadyOf(w, r);
    if Kept(w.history, r.dest) && WellNamed(r) {
      if r.dest == x.request.dest {
        LateOwner(w, a, r);
        LateWork(w, a);
        StandOf(w, a);
        ActionAdvances(w, a, action);
      } else {
        LateSame(w, a, action, r.dest);
        SameDestSound(w.disk, v.disk, r);
      }
    }
  }

  lemma LateStanding(w: World, a: nat, action: Action, v: World, b: nat)
    requires a in w.activators && b in w.activators && b in v.activators && ActivationStep(w, a, action) == Some(v)
    requires Inv(w) && Calm(w) && Resumable(w) && ReservedFirst(w) && PastReserve(w.activators[a].phase)
    ensures Unclaimed(v, v.activators[b]) && Standing(v, v.activators[b])
  {
    var x, y := w.activators[a], w.activators[b];
    hide Inv, Calm, Resumable, ReservedFirst, LocalStep, StandsRight, DestSound, Noted, Unclaimed, Standing, ActivationStep,
         SameDest;
    Stepped(w, a, action);
    HistoryKept(w, a, action);
    if !Kept(w.history, y.request.dest) {
      PhaseChanges(w, a, action);
      LostStands(v, v.activators[b]);
    } else if b == a {
      LateOwn(w, a, action);
    } else if y.request.dest != x.request.dest {
      StandOf(w, b);
      LateSame(w, a, action, y.request.dest);
      LateReservations(w, a, action);
      StandsApart(w, v, y);
    } else {
      LateSharing(w, a, action, b);
    }
  }

  lemma LostStands(v: World, y: Activator)
    requires !Kept(v.history, y.request.dest)
    ensures Unclaimed(v, y) && Standing(v, y)
  {
  }

  lemma LateSharing(w: World, a: nat, action: Action, b: nat)
    requires Inv(w) && ReservedFirst(w) && ActivationStep(w, a, action).Some? && PastReserve(w.activators[a].phase)
    requires b in w.activators && a != b && w.activators[b].request.dest == w.activators[a].request.dest
    requires Kept(w.history, w.activators[a].request.dest)
    ensures var v := ActivationStep(w, a, action).value; Unclaimed(v, w.activators[b]) && Standing(v, w.activators[b])
  {
    var x, y := w.activators[a], w.activators[b];
    hide Inv, ReservedFirst, LocalStep, StandsRight, ActivationStep;
    if PastReserve(y.phase) { LateAlone(w, a, b); }
    ReservedOf(w, a);
    OwnsKept(w, x.request);
    LateHolds(w, a, action);
  }

  lemma LateOwn(w: World, a: nat, action: Action)
    requires Calm(w) && Resumable(w) && ReservedFirst(w)
    requires ActivationStep(w, a, action).Some? && PastReserve(w.activators[a].phase) && Kept(w.history, w.activators[a].request.dest)
    ensures var v := ActivationStep(w, a, action).value; Unclaimed(v, v.activators[a]) && Standing(v, v.activators[a])
  {
    hide Calm, Resumable, ReservedFirst, LocalStep, StandsRight, DestSound, Noted, Holding, Backed;
    LateUnclaimed(w, a, action);
    LateWork(w, a);
    StandOf(w, a);
    HistoryKept(w, a, action);
    ActionAdvances(w, a, action);
  }

  lemma LateReservations(w: World, a: nat, action: Action)
    requires ActivationStep(w, a, action).Some?
    ensures var v, t := ActivationStep(w, a, action).value, w.activators[a].request.dest;
            forall q :: q != t ==> (q in w.disk.reservations <==> q in v.disk.reservations)
  {
    hide LocalStep;
    ReservationsChange(w, a, action);
  }

  lemma ReservedOf(w: World, a: nat)
    requires ReservedFirst(w) && a in w.activators && PastReserve(w.activators[a].phase)
    ensures w.activators[a].request in w.history.reserved
  {
    hide Owns;
  }

  /** While nothing of a destination is lost, only one activation rests on its reservation. */
  lemma LateAlone(w: World, a: nat, b: nat)
    requires Inv(w) && ReservedFirst(w) && a in w.activators && b in w.activators
    requires PastReserve(w.activators[a].phase) && PastReserve(w.activators[b].phase)
    requires w.activators[a].request.dest == w.activators[b].request.dest && Kept(w.history, w.activators[a].request.dest)
    ensures a == b
  {
    hide Inv, ReservedFirst;
    ReservedOf(w, a);
    ReservedOf(w, b);
    OwnsKept(w, w.activators[a].request);
    OwnsKept(w, w.activators[b].request);
    OneHolder(w, a, b);
  }

  lemma HistoryKept(w: World, a: nat, action: Action)
    requires ActivationStep(w, a, action).Some?
    ensures var h := ActivationStep(w, a, action).value.history;
            h.lostReservations == w.history.lostReservations && h.lostDirs == w.history.lostDirs
  {
    hide LocalStep;
  }

  lemma LateHolds(w: World, a: nat, action: Action)
    requires ActivationStep(w, a, action).Some?
    ensures forall t :: t in w.disk.reservations ==> t in ActivationStep(w, a, action).value.disk.reservations
  {
    hide LeasesOk, ComponentsExist, Initializing, Acceptable, Continues, HeldBySome, SharedBySome, RetirementAllows;
  }

  lemma LateUnclaimed(w: World, a: nat, action: Action)
    requires ActivationStep(w, a, action).Some? && PastReserve(w.activators[a].phase)
    ensures var y := ActivationStep(w, a, action).value.activators[a]; !Claiming(y.phase) && y.request == w.activators[a].request
  {
    hide LeasesOk, ComponentsExist, Initializing, Acceptable, Continues, HeldBySome, SharedBySome, RetirementAllows;
  }

  lemma LateResumes(w: World, a: nat, action: Action)
    requires Inv(w) && Calm(w) && Resumable(w) && ReservedFirst(w)
    requires ActivationStep(w, a, action).Some? && PastReserve(w.activators[a].phase)
    ensures Resumable(ActivationStep(w, a, action).value)
  {
    var v := ActivationStep(w, a, action).value;
    assert w.activators[a].request in w.history.reserved by { hide Inv, Calm, Resumable, ActivationStep, Owns; }
    assert Filed(w.disk, w.history.reserved) by { hide Filed, ActivationStep, Inv, Calm, ReservedFirst; }
    hide Inv, Calm, ReservedFirst, LocalStep, Filed, Resumable, Noted, ReadyIfKept, Unclaimed, Standing;
    FiledLate(w, a, action);
    forall b | b in w.activators ensures Unclaimed(v, v.activators[b]) && Standing(v, v.activators[b]) {
      LateStanding(w, a, action, v, b);
    }
    forall r | r in w.history.reserved ensures ReadyIfKept(v, r) {
      LateReady(w, a, action, r);
    }
    Gathered(v);
  }

  lemma Gathered(v: World)
    requires Filed(v.disk, v.history.reserved)
    requires forall a :: a in v.activators ==> Unclaimed(v, v.activators[a]) && Standing(v, v.activators[a])
    requires forall r :: r in v.history.reserved ==> ReadyIfKept(v, r)
    ensures Resumable(v)
  {
  }

  /** A destination that nobody owns yet does not exist, so a new reservation starts afresh. */
  lemma FreshClaim(w: World, a: nat)
    requires Resumable(w) && ActivationStep(w, a, Reserve).Some?
    ensures ReadyIfKept(ActivationStep(w, a, Reserve).value, w.activators[a].request)
  {
    var v, x := ActivationStep(w, a, Reserve).value, w.activators[a];
    var t := x.request.dest;
    assert Unclaimed(w, x);
    if t in w.disk.reservations {
      assert x.request in w.history.reserved;
      assert ReadyIfKept(w, x.request);
      hide Resumable, DestSound, WellNamed;
    } else if t !in w.disk.dirs {
      hide WellNamed;
      assert t !in w.disk.receipts && t !in w.disk.pending;
    }
  }

  lemma EarlyRecords(w: World, a: nat, action: Action)
    requires a in w.activators && !PastReserve(w.activators[a].phase) && LocalStep(w, a, action).Some?
    requires LeasesRight(w.disk, a, w.activators[a])
    ensures forall s :: s in LocalStep(w, a, action).value.disk.records ==> s in w.disk.records || s in w.disk.content
    ensures !action.Reserve? ==> LocalStep(w, a, action).value.disk.reservations == w.disk.reservations
    ensures LocalStep(w, a, action).value.disk.retired == w.disk.retired
  {
    EarlyDisk(w, a, action);
    match action
    case Reserve => hide LeasesRight, Continues;
    case PublishLease =>
    case Release(s) => hide LeasesRight;
    case _ => hide *;
  }

  lemma EarlySame(w: World, a: nat, action: Action, t: Dir)
    requires a in w.activators && !PastReserve(w.activators[a].phase) && LocalStep(w, a, action).Some?
    requires LeasesRight(w.disk, a, w.activators[a])
    ensures SameDest(w.disk, LocalStep(w, a, action).value.disk, t)
  {
    hide LeasesRight, LocalStep;
    EarlyStep(w, a, action);
    EarlyRecords(w, a, action);
  }

  /** The preflight lets nobody past an existing destination that has no reservation. */
  lemma EarlyClaim(w: World, a: nat, action: Action)
    requires Resumable(w) && ReservedFirst(w) && ActivationStep(w, a, action).Some? && !PastReserve(w.activators[a].phase)
    ensures var v := ActivationStep(w, a, action).value; Unclaimed(v, v.activators[a]) && Standing(v, v.activators[a])
  {
    hide Resumable, ReservedFirst, LocalStep, Filed, Noted;
    HistoryKept(w, a, action);
    if action.Preflight? {
      PreflightClaim(w, a);
    } else {
      StandOf(w, a);
      EarlyStep(w, a, action);
      EarlyPhase(w, a, action);
    }
  }

  lemma PreflightClaim(w: World, a: nat)
    requires Resumable(w) && ReservedFirst(w) && ActivationStep(w, a, Preflight).Some?
    ensures var v := ActivationStep(w, a, Preflight).value; Unclaimed(v, v.activators[a]) && Standing(v, v.activators[a])
  {
    var t, d := w.activators[a].request.dest, w.disk;
    assert Filed(d, w.history.reserved);
    assert t in d.receipts ==> Owns(w, d.receipts[t]) && d.receipts[t].dest == t;
    assert t in d.pending ==> Owns(w, d.pending[t]) && d.pending[t].dest == t;
    hide Resumable, ReservedFirst, Filed, Continues;
  }

  lemma EarlyPhase(w: World, a: nat, action: Action)
    requires ActivationStep(w, a, action).Some? && !PastReserve(w.activators[a].phase) && !action.Preflight?
    ensures var y := ActivationStep(w, a, action).value.activators[a];
            && (Claiming(y.phase) ==> Claiming(w.activators[a].phase)) && y.request == w.activators[a].request
            && (PastReserve(y.phase) ==> y.phase.Retiring?)
  {
    hide LeasesOk, ComponentsExist, Initializing, Acceptable, Continues, HeldBySome, SharedBySome, RetirementAllows;
  }

  lemma EarlyResumes(w: World, a: nat, action: Action)
    requires Inv(w) && Resumable(w) && ReservedFirst(w)
    requires ActivationStep(w, a, action).Some? && !PastReserve(w.activators[a].phase)
    ensures Resumable(ActivationStep(w, a, action).value)
  {
    var v, x := ActivationStep(w, a, action).value, w.activators[a];
    assert LeasesRight(w.disk, a, x) by { assert LocalOk(w.disk, a, x); }
    assert Filed(w.disk, w.history.reserved) by { hide Filed, ActivationStep, Inv, ReservedFirst; }
    EarlyReserved(w, a, action);
    hide LeasesRight, Inv, LocalStep, Filed, Noted, Resumable, ReservedFirst, Unclaimed, Standing, ReadyIfKept;
    FiledEarly(w, a, action);
    EarlyClaim(w, a, action);
    forall b | b in w.activators && b != a ensures Unclaimed(v, w.activators[b]) && Standing(v, w.activators[b]) {
      EarlyOther(w, a, action, v, b);
    }
    forall r | r in w.history.reserved ensures ReadyIfKept(v, r) {
      EarlyReady(w, a, action, v, r);
    }
    if action.Reserve? {
      FreshClaim(w, a);
    }
    Gathered(v);
  }

  lemma EarlyOther(w: World, a: nat, action: Action, v: World, b: nat)
    requires a in w.activators && b in w.activators && a != b && ActivationStep(w, a, action) == Some(v)
    requires !PastReserve(w.activators[a].phase) && LeasesRight(w.disk, a, w.activators[a]) && Resumable(w)
    ensures Unclaimed(v, w.activators[b]) && Standing(v, w.activators[b])
  {
    hide Resumable, StandsRight, LeasesRight, LocalStep, Noted, SameDest, Filed;
    var y := w.activators[b];
    var t := y.request.dest;
    StandOf(w, b);
    HistoryKept(w, a, action);
    EarlySame(w, a, action, t);
    EarlyStep(w, a, action);
    if PastReserve(y.phase) && Kept(w.history, t) && t in w.disk.dirs {
      SameDestStands(w.disk, v.disk, y);
    }
  }

  lemma EarlyReady(w: World, a: nat, action: Action, v: World, r: Request)
    requires a in w.activators && r in w.history.reserved && ActivationStep(w, a, action) == Some(v)
    requires !PastReserve(w.activators[a].phase) && LeasesRight(w.disk, a, w.activators[a]) && Resumable(w)
    ensures ReadyIfKept(v, r)
  {
    hide Resumable, LeasesRight, LocalStep, Noted, SameDest;
    ReadyOf(w, r);
    HistoryKept(w, a, action);
    EarlySame(w, a, action, r.dest);
    ReadyApart(w, v, r);
  }

  lemma EarlyReserved(w: World, a: nat, action: Action)
    requires ActivationStep(w, a, action).Some?
    ensures ActivationStep(w, a, action).value.history.reserved
         == w.history.reserved + if action.Reserve? then {w.activators[a].request} else {}
  {
    hide LocalStep;
  }

  lemma WriteSound(d: Disk, e: Disk, r: Request, db: Db, value: string)
    requires db in d.content && e == d.(content := d.content[db := value])
    requires r.dest in d.gates && r.dest in d.receipts && d.receipts[r.dest] == r ==> !Names(r, db)
    requires r.dest in d.pending && d.pending[r.dest] == r ==> !Names(r, db)
    ensures DestSound(d, r) ==> DestSound(e, r)
  {
    if DestSound(d, r) {
      if r.dest in d.receipts {
        if r.dest in d.gates {
          forall s | s in r.members ensures ComponentRight(e, r, s) { assert ComponentRight(d, r, s); }
        }
      } else if r.dest in d.pending {
        forall s | s in r.members && Component(r, s) in e.content ensures ComponentRight(e, r, s) {
          assert ComponentRight(d, r, s);
        }
      }
    }
  }

  lemma ClientResumes(w: World, c: nat, use: Use)
    requires Calm(w) && Resumable(w) && ClientStep(w, c, use).Some?
    ensures Resumable(ClientStep(w, c, use).value)
  {
    var v := ClientStep(w, c, use).value;
    if use.Write? {
      var db := w.writers[c].db;
      CalmParts(w);
      hide Calm, Grounded, Apart;
      forall r | r in w.history.reserved ensures ReadyIfKept(v, r) {
        assert ReadyIfKept(w, r);
        hide DestSound, WellNamed, Resumable;
        assert Names(r, db) ==> Exposed(w.writers, r);
        hide Names, Exposed;
        WriteSound(w.disk, v.disk, r, db, use.value);
      }
      forall a | a in w.activators ensures Unclaimed(v, w.activators[a]) && Standing(v, w.activators[a]) {
        assert Unclaimed(w, w.activators[a]) && Standing(w, w.activators[a]);
      }
      hide ReadyIfKept, Unclaimed, Standing;
    } else {
      hide Calm, HeldBySome;
      assert v.disk == w.disk && v.activators == w.activators && v.history == w.history;
      hide ClientStep, ReadyIfKept, Unclaimed, Standing, Filed;
      SameWorld(w, v);
    }
  }

  lemma SameWorld(w: World, v: World)
    requires Resumable(w) && v.disk == w.disk && v.history == w.history
    requires forall a :: a in v.activators ==>
      (a in w.activators && v.activators[a] == w.activators[a]) || v.activators[a].phase.Preparing?
    ensures Resumable(v)
  {
    forall a | a in v.activators ensures Unclaimed(v, v.activators[a]) && Standing(v, v.activators[a]) {
      if a in w.activators && v.activators[a] == w.activators[a] {
        assert Unclaimed(w, w.activators[a]) && Standing(w, w.activators[a]);
      }
    }
    forall r | r in v.history.reserved ensures ReadyIfKept(v, r) {
      assert ReadyIfKept(w, r);
    }
  }

  /** A lost directory takes everything in it along, so the reservation stands for a fresh start. */
  lemma LossResumes(w: World, d: Dir)
    requires Resumable(w) && MayLose(w, d)
    ensures Resumable(Next(w, LoseDir(d)).value)
  {
    var v := Next(w, LoseDir(d)).value;
    hide MayLose;
    assert Filed(v.disk, v.history.reserved);
    forall t | t != d ensures SameDest(w.disk, v.disk, t) { }
    assert Barren(v.disk, d);
    forall a | a in v.activators ensures Unclaimed(v, v.activators[a]) && Standing(v, v.activators[a]) {
      assert Unclaimed(w, v.activators[a]) && Standing(w, v.activators[a]);
      hide Resumable, StandsRight, Filed, SameDest;
      if v.activators[a].request.dest != d { StandsApart(w, v, v.activators[a]); }
    }
    forall r | r in v.history.reserved ensures ReadyIfKept(v, r) {
      assert ReadyIfKept(w, r);
      hide Resumable, WellNamed, Filed, SameDest;
      if r.dest != d { ReadyApart(w, v, r); }
    }
    hide Unclaimed, Standing, ReadyIfKept, Filed;
    Gathered(v);
  }

  lemma ReservationLossResumes(w: World, d: Dir)
    requires Resumable(w)
    ensures Resumable(Next(w, LoseReservation(d)).value)
  {
    var v := Next(w, LoseReservation(d)).value;
    assert Filed(v.disk, v.history.reserved);
    forall t | t != d ensures SameDest(w.disk, v.disk, t) { }
    forall a | a in v.activators ensures Unclaimed(v, v.activators[a]) && Standing(v, v.activators[a]) {
      assert Unclaimed(w, v.activators[a]) && Standing(w, v.activators[a]);
      hide Resumable, StandsRight, Filed, SameDest;
      if v.activators[a].request.dest != d { StandsApart(w, v, v.activators[a]); }
    }
    forall r | r in v.history.reserved ensures ReadyIfKept(v, r) {
      assert ReadyIfKept(w, r);
      hide Resumable, WellNamed, Filed, SameDest;
      if r.dest != d { ReadyApart(w, v, r); }
    }
    hide Unclaimed, Standing, ReadyIfKept, Filed;
    Gathered(v);
  }

  /** What is not lost is as it was. */
  lemma StandsApart(w: World, v: World, y: Activator)
    requires Unclaimed(w, y) && Standing(w, y) && SameDest(w.disk, v.disk, y.request.dest)
    requires y.request.dest in v.disk.reservations <==> y.request.dest in w.disk.reservations
    requires Kept(v.history, y.request.dest) ==> Kept(w.history, y.request.dest)
    requires y.request.dest in w.history.lostDirs ==> y.request.dest in v.history.lostDirs
    ensures Unclaimed(v, y) && Standing(v, y)
  {
    hide StandsRight;
    if PastReserve(y.phase) && Kept(v.history, y.request.dest) && y.request.dest in w.disk.dirs {
      SameDestStands(w.disk, v.disk, y);
    }
  }

  lemma ReadyApart(w: World, v: World, r: Request)
    requires ReadyIfKept(w, r) && SameDest(w.disk, v.disk, r.dest)
    requires Kept(v.history, r.dest) ==> Kept(w.history, r.dest)
    requires r.dest in w.history.lostDirs ==> r.dest in v.history.lostDirs
    ensures ReadyIfKept(v, r)
  {
    hide DestSound, WellNamed, Backed;
    if Kept(v.history, r.dest) && WellNamed(r) { SameDestSound(w.disk, v.disk, r); }
  }

  lemma ResumableStep(w: World, e: Event)
    requires Inv(w) && Calm(w) && Resumable(w) && ReservedFirst(w) && Next(w, e).Some?
    ensures Resumable(Next(w, e).value)
  {
    hide Inv, Calm, Resumable, ReservedFirst, ActivationStep, ClientStep, MayLose;
    match e
    case Begin(a, r) => SameWorld(w, Next(w, e).value);
    case Act(a, action) =>
      assert a in w.activators by { ActorExists(w, a, action); }
      if PastReserve(w.activators[a].phase) {
        LateResumes(w, a, action);
      } else {
        EarlyResumes(w, a, action);
      }
    case Stop(a) => SameWorld(w, Next(w, e).value);
    case Client(c, use) => ClientResumes(w, c, use);
    case LoseDir(d) => LossResumes(w, d);
    case LoseReservation(d) => ReservationLossResumes(w, d);
  }

  lemma ActorExists(w: World, a: nat, action: Action)
    requires ActivationStep(w, a, action).Some?
    ensures a in w.activators
  {
    hide LocalStep;
  }

  lemma {:induction false} ResumableAlways(start: World, run: seq<Event>)
    requires Initial(start) && After(start, run).Some? && OrderlyRun(start, run)
    ensures Resumable(After(start, run).value)
    decreases |run|
  {
    hide Next;
    if run != [] {
      var before, e := run[..|run| - 1], run[|run| - 1];
      AfterLastStep(start, run);
      ResumableAlways(start, before);
      InvAlways(start, before);
      CalmAlways(start, before);
      ReservedAlways(start, before);
      hide After, Initial, Inv, Calm, Resumable, ReservedFirst, Orderly;
      ResumableStep(After(start, before).value, e);
    }
  }

  /** At every moment of every orderly run, however many crashes and losses it contains, each
      request that was ever reserved and whose reservation was not lost finds its destination in a
      state that its retry accepts, exactly if the receipt is there once the reservation says
      committed. So it does unless its directory was lost after or while it was committed. */
  lemma AlwaysResumable(start: World, run: seq<Event>, r: Request)
    requires Initial(start) && After(start, run).Some? && OrderlyRun(start, run)
    requires var h := After(start, run).value.history; r in h.reserved && r.dest !in h.lostReservations
    ensures var w := After(start, run).value;
            && r.dest in w.disk.reservations && w.disk.reservations[r.dest].request == r
            && (DestReady(w.disk, r) <==> (w.disk.reservations[r.dest].activated ==> r.dest in w.disk.receipts))
            && (r.dest !in w.history.lostDirs || r !in w.history.committed ==> DestReady(w.disk, r))
  {
    var w := After(start, run).value;
    ResumableAlways(start, run);
    ReservedAlways(start, run);
    ActivatedAlways(start, run);
    hide After, Initial, OrderlyRun;
    ReadyIsSound(w.disk, r);
    OwnsKept(w, r);
    ReadyOf(w, r);
    assert WellNamed(r) by { hide Resumable, WellNamed, Owns; }
    hide Resumable, ReservedFirst, DestSound, DestReady, WellNamed;
  }

  /** A reservation that says committed is that of a committed request. */
  predicate ActivatedRight(w: World)
  {
    forall t :: t in w.disk.reservations && w.disk.reservations[t].activated ==>
      w.disk.reservations[t].request in w.history.committed
  }

  lemma ActivatedStep(w: World, e: Event)
    requires ActivatedRight(w) && Next(w, e).Some?
    ensures ActivatedRight(Next(w, e).value)
  {
    if e.Act? {
      ActivatedAction(w, e.a, e.action);
    } else {
      hide MayLose, HeldBySome, WellNamed;
    }
  }

  lemma ActivatedAction(w: World, a: nat, action: Action)
    requires ActivatedRight(w) && ActivationStep(w, a, action).Some?
    ensures ActivatedRight(ActivationStep(w, a, action).value)
  {
    hide LeasesOk, ComponentsExist, Initializing, Acceptable, Continues, HeldBySome, SharedBySome, RetirementAllows;
  }

  lemma {:induction false} ActivatedAlways(start: World, run: seq<Event>)
    requires Initial(start) && After(start, run).Some?
    ensures ActivatedRight(After(start, run).value)
    decreases |run|
  {
    hide Next;
    if run != [] {
      AfterLastStep(start, run);
      ActivatedAlways(start, run[..|run| - 1]);
      hide After, Initial, ActivatedRight;
      ActivatedStep(After(start, run[..|run| - 1]).value, run[|run| - 1]);
    }
  }
}
