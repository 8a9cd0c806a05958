/** What every reachable state of the handoff keeps, however activations, writers, crashes and
    losses interleave. */
module HandoffSafety {
  import opened StrictJson
  import opened HandoffProtocol

  // ---------------------------------------------------------------- the invariant

  /** The phases in which every source is leased. */
  predicate Leased(p: Phase) { !p.Preparing? && !p.Locking? && !p.Locked? && !p.Fenced? && !p.Leaving? }
  predicate PastVerify(p: Phase) { Leased(p) && !p.Verifying? }
  predicate PastReserve(p: Phase) { PastVerify(p) && !p.Reserving? }
  predicate PastRetire(p: Phase) { PastReserve(p) && !p.Retiring? }

  /** The sources found equal to the snapshot, and the sources it has seen retired. */
  function Certified(x: Activator): set<Db>
  {
    if PastVerify(x.phase) then x.request.members.Keys else if x.phase.Verifying? then x.done else {}
  }

  function Surrendered(x: Activator): set<Db>
  {
    if PastRetire(x.phase) then x.request.members.Keys else if x.phase.Retiring? then x.done else {}
  }

  predicate Unlocking(x: Activator) { x.phase.Locked? || x.phase.Fenced? }

  ghost predicate LeasesRight(d: Disk, a: nat, x: Activator)
  {
    && x.request.members != map[] && x.leases.Keys <= x.request.members.Keys && x.done <= x.request.members.Keys
    && (!Leased(x.phase) && !x.phase.Leaving? ==> x.done == {})
    && (Unlocking(x) ==> x.phase.source in x.request.members && x.phase.source !in x.leases)
    && (x.phase.Fenced? ==> x.phase.source in d.content && x.phase.fence == FenceOf(d, x.phase.source))
    && (forall s :: s in x.leases ==> s in d.records && d.records[s] == Record(x.leases[s], Some(a)))
    && (Leased(x.phase) ==> x.leases.Keys == x.request.members.Keys)
  }

  ghost predicate SourcesRight(d: Disk, x: Activator)
    requires x.done <= x.request.members.Keys
  {
    && (forall s :: s in Certified(x) ==> s in d.content && d.content[s] == x.request.members[s].content)
    && (forall s :: s in Surrendered(x) ==> s in d.retired && d.retired[s] == x.request)
  }

  /** What one activation knows about the disk. */
  ghost predicate LocalOk(d: Disk, a: nat, x: Activator)
  {
    LeasesRight(d, a, x) && SourcesRight(d, x)
  }

  ghost predicate Exclusive(w: World)
  {
    && (forall a, b :: a in w.activators && b in w.activators && a != b ==>
          Holds(w.activators[a]) !! Holds(w.activators[b]))
    && (forall c, a :: c in w.writers && Shares(w.writers[c]) && a in w.activators ==>
          w.writers[c].db !in Holds(w.activators[a]))
  }

  /** A retired source has exactly the contents that its successor was copied from. */
  ghost predicate Frozen(d: Disk)
  {
    forall s :: s in d.retired ==>
      s in d.retired[s].members && s in d.content && d.content[s] == d.retired[s].members[s].content
  }

  ghost predicate NoWriterOnRetired(w: World)
  {
    forall c :: c in w.writers && w.writers[c].phase.Connected? ==> w.writers[c].db !in w.disk.retired
  }

  /** All sources of an activation that has put something in place are retired for it. */
  predicate Retired(d: Disk, r: Request)
  {
    forall s :: s in r.members ==> s in d.retired && d.retired[s] == r
  }

  ghost predicate Inv(w: World)
  {
    && (forall a :: a in w.activators ==> LocalOk(w.disk, a, w.activators[a]))
    && Exclusive(w) && Frozen(w.disk) && NoWriterOnRetired(w)
    && (forall r :: r in w.history.placed ==> Retired(w.disk, r))
    && (forall r :: r in w.history.ungated ==> Retired(w.disk, r))
  }

  lemma SeenRetired(w: World, a: nat)
    requires Inv(w) && a in w.activators && PastRetire(w.activators[a].phase)
    ensures Retired(w.disk, w.activators[a].request)
  {
    assert LocalOk(w.disk, a, w.activators[a]);
  }

  // ---------------------------------------------------------------- one activation's step

  /** Nothing that an exclusive holder of `s` relies on has changed. */
  predicate SameFor(d: Disk, e: Disk, s: Db)
  {
    && (s in d.content ==> s in e.content && e.content[s] == d.content[s])
    && (s in d.retired <==> s in e.retired) && (s in d.retired ==> e.retired[s] == d.retired[s])
    && (s in d.records <==> s in e.records) && (s in d.records ==> e.records[s] == d.records[s])
  }

  lemma LocalKept(d: Disk, e: Disk, a: nat, x: Activator)
    requires LocalOk(d, a, x) && forall s :: s in Holds(x) ==> SameFor(d, e, s)
    ensures LocalOk(e, a, x)
  {
    assert Certified(x) <= Holds(x) || !Leased(x.phase);
  }

  /** A step that touches only what its activation holds, and keeps what it knows. */
  ghost predicate GoodStep(d: Disk, a: nat, x: Activator, next: Local)
  {
    LocalOk(next.disk, a, next.x) && Framed(d, x, next)
  }

  ghost predicate Framed(d: Disk, x: Activator, next: Local)
  {
    && next.x.request == x.request && Holds(next.x) <= Holds(x)
    && (forall s :: s !in Holds(x) ==> SameFor(d, next.disk, s))
    && Frozen(next.disk)
    && (forall s :: s in d.retired ==> s in next.disk.retired && next.disk.retired[s] == d.retired[s])
    && (forall s :: s in next.disk.retired ==> s in d.retired || s in Holds(x))
  }

  /** A step that leaves sources, markers and records alone and only moves the phase on. */
  lemma QuietStep(d: Disk, a: nat, x: Activator, next: Local)
    requires LocalOk(d, a, x) && Frozen(d) && Leased(x.phase)
    requires next.disk.content == d.content && next.disk.retired == d.retired && next.disk.records == d.records
    requires next.x.request == x.request && next.x.leases == x.leases && next.x.done <= x.request.members.Keys
    requires Leased(next.x.phase) || next.x.phase.Leaving?
    requires Certified(next.x) <= Certified(x) && Surrendered(next.x) <= Surrendered(x)
    ensures GoodStep(d, a, x, next)
  {
  }

  lemma FenceStep(d: Disk, a: nat, x: Activator)
    requires LocalOk(d, a, x) && Frozen(d)
    ensures TakeFence(d, x).Some? ==> GoodStep(d, a, x, TakeFence(d, x).value)
  {
    hide Frozen;
  }

  lemma LeaseStep(d: Disk, a: nat, x: Activator)
    requires LocalOk(d, a, x) && Frozen(d)
    ensures TakeLease(d, a, x).Some? ==> GoodStep(d, a, x, TakeLease(d, a, x).value)
  {
    hide LocalOk, Framed;
    if TakeLease(d, a, x).Some? {
      LeaseLocal(d, a, x);
      LeaseFramed(d, a, x);
    }
  }

  lemma LeaseLocal(d: Disk, a: nat, x: Activator)
    requires LocalOk(d, a, x) && TakeLease(d, a, x).Some?
    ensures LocalOk(TakeLease(d, a, x).value.disk, a, TakeLease(d, a, x).value.x)
  {
  }

  lemma LeaseFramed(d: Disk, a: nat, x: Activator)
    requires Frozen(d) && TakeLease(d, a, x).Some?
    ensures Framed(d, x, TakeLease(d, a, x).value)
  {
    FrozenSame(d, TakeLease(d, a, x).value.disk);
    hide Frozen;
  }

  lemma PreflightStep(d: Disk, a: nat, x: Activator)
    requires LocalOk(d, a, x) && Frozen(d)
    ensures PassPreflight(d, x).Some? ==> GoodStep(d, a, x, PassPreflight(d, x).value)
  {
    hide Continues, Acceptable, Frozen;
  }

  lemma VerifyStep(d: Disk, a: nat, x: Activator, s: Db)
    requires LocalOk(d, a, x) && Frozen(d)
    ensures VerifySource(d, a, x, s).Some? ==> GoodStep(d, a, x, VerifySource(d, a, x, s).value)
  {
  }

  lemma DecisionSteps(d: Disk, a: nat, x: Activator)
    requires LocalOk(d, a, x) && Frozen(d)
    ensures JudgeReplay(d, x).Some? ==> GoodStep(d, a, x, JudgeReplay(d, x).value)
    ensures ReserveDest(d, x).Some? ==> GoodStep(d, a, x, ReserveDest(d, x).value)
  {
    hide Frozen, Continues, GoodStep;
    if JudgeReplay(d, x).Some? { QuietStep(d, a, x, JudgeReplay(d, x).value); }
    if ReserveDest(d, x).Some? { QuietStep(d, a, x, ReserveDest(d, x).value); }
  }

  lemma OpenStep(d: Disk, a: nat, x: Activator)
    requires LocalOk(d, a, x) && Frozen(d)
    ensures OpenDest(d, a, x).Some? ==> GoodStep(d, a, x, OpenDest(d, a, x).value)
  {
    hide Frozen, OpenDest, GoodStep;
    if OpenDest(d, a, x).Some? {
      OpenShape(d, a, x);
      QuietStep(d, a, x, OpenDest(d, a, x).value);
    }
  }

  lemma OpenShape(d: Disk, a: nat, x: Activator)
    requires OpenDest(d, a, x).Some?
    ensures x.phase.Retiring? && x.done == x.request.members.Keys
    ensures var next := OpenDest(d, a, x).value;
            next.disk == d.(dirs := next.disk.dirs) && next.x == x.(phase := next.x.phase, done := {}) && PastRetire(next.x.phase)
  {
    hide Initializing, ComponentsExist, LeasesOk;
  }

  lemma RetireStep(d: Disk, a: nat, x: Activator, s: Db)
    requires LocalOk(d, a, x) && Frozen(d)
    ensures RetireSource(d, x, s).Some? ==> GoodStep(d, a, x, RetireSource(d, x, s).value)
  {
    hide LocalOk, Frozen, Framed;
    if RetireSource(d, x, s).Some? {
      RetireLocal(d, a, x, s);
      RetireFramed(d, a, x, s);
    }
  }

  lemma RetireLocal(d: Disk, a: nat, x: Activator, s: Db)
    requires LocalOk(d, a, x) && RetireSource(d, x, s).Some?
    ensures LocalOk(RetireSource(d, x, s).value.disk, a, RetireSource(d, x, s).value.x)
  {
    var next := RetireSource(d, x, s).value;
    assert LeasesRight(next.disk, a, next.x) by { hide SourcesRight; }
    assert SourcesRight(next.disk, next.x) by { hide LeasesRight; }
    hide LeasesRight, SourcesRight, RetireSource;
  }

  lemma RetireFramed(d: Disk, a: nat, x: Activator, s: Db)
    requires LocalOk(d, a, x) && Frozen(d) && RetireSource(d, x, s).Some?
    ensures Framed(d, x, RetireSource(d, x, s).value)
  {
    assert s in Holds(x) && s in d.content && d.content[s] == x.request.members[s].content by {
      hide Frozen;
      assert s in Certified(x);
    }
    hide LocalOk, Certified;
    RetireOwn(d, x, s);
  }

  /** Retiring a source that still holds what the snapshot recorded. */
  lemma RetireOwn(d: Disk, x: Activator, s: Db)
    requires Frozen(d) && RetireSource(d, x, s).Some? && s in Holds(x)
    requires s in d.content && d.content[s] == x.request.members[s].content
    ensures Framed(d, x, RetireSource(d, x, s).value)
  {
    RetireFrozen(d, x, s);
    hide Frozen;
    assert Holds(RetireSource(d, x, s).value.x) == Holds(x);
  }

  lemma RetireFrozen(d: Disk, x: Activator, s: Db)
    requires Frozen(d) && RetireSource(d, x, s).Some?
    requires s in d.content && d.content[s] == x.request.members[s].content
    ensures Frozen(RetireSource(d, x, s).value.disk)
  {
  }

  lemma CopyStep(d: Disk, a: nat, x: Activator, s: Db)
    requires LocalOk(d, a, x) && Frozen(d)
    ensures CopyMember(d, a, x, s).Some? ==> GoodStep(d, a, x, CopyMember(d, a, x, s).value)
  {
    hide LocalOk, Frozen, Framed;
    if CopyMember(d, a, x, s).Some? {
      CopyLocal(d, a, x, s);
      CopyFramed(d, a, x, s);
    }
  }

  lemma CopyLocal(d: Disk, a: nat, x: Activator, s: Db)
    requires LocalOk(d, a, x) && CopyMember(d, a, x, s).Some?
    ensures LocalOk(CopyMember(d, a, x, s).value.disk, a, CopyMember(d, a, x, s).value.x)
  {
    hide LeasesOk;
  }

  lemma CopyFramed(d: Disk, a: nat, x: Activator, s: Db)
    requires LocalOk(d, a, x) && Frozen(d) && CopyMember(d, a, x, s).Some?
    ensures Framed(d, x, CopyMember(d, a, x, s).value)
  {
    hide LeasesOk, LocalOk;
  }

  lemma GateSteps(d: Disk, a: nat, x: Activator)
    requires LocalOk(d, a, x) && Frozen(d)
    ensures PutGate(d, x).Some? ==> GoodStep(d, a, x, PutGate(d, x).value)
    ensures PutPending(d, x).Some? ==> GoodStep(d, a, x, PutPending(d, x).value)
  {
    hide Frozen, GoodStep;
    if PutGate(d, x).Some? { QuietStep(d, a, x, PutGate(d, x).value); }
    if PutPending(d, x).Some? { QuietStep(d, a, x, PutPending(d, x).value); }
  }

  lemma PublishSteps(d: Disk, a: nat, x: Activator)
    requires LocalOk(d, a, x) && Frozen(d)
    ensures PutReceipt(d, a, x).Some? ==> GoodStep(d, a, x, PutReceipt(d, a, x).value)
    ensures CommitReservation(d, x).Some? ==> GoodStep(d, a, x, CommitReservation(d, x).value)
  {
    hide Frozen, LeasesOk, GoodStep;
    if PutReceipt(d, a, x).Some? { QuietStep(d, a, x, PutReceipt(d, a, x).value); }
    if CommitReservation(d, x).Some? { QuietStep(d, a, x, CommitReservation(d, x).value); }
  }

  lemma FinishSteps(d: Disk, a: nat, x: Activator)
    requires LocalOk(d, a, x) && Frozen(d)
    ensures RemovePending(d, x).Some? ==> GoodStep(d, a, x, RemovePending(d, x).value)
    ensures RemoveGate(d, x).Some? ==> GoodStep(d, a, x, RemoveGate(d, x).value)
  {
    hide Frozen, GoodStep;
    if RemovePending(d, x).Some? { QuietStep(d, a, x, RemovePending(d, x).value); }
    if RemoveGate(d, x).Some? { QuietStep(d, a, x, RemoveGate(d, x).value); }
  }

  lemma SettleSteps(d: Disk, a: nat, x: Activator)
    requires LocalOk(d, a, x) && Frozen(d)
    ensures AdoptReceipt(d, a, x).Some? ==> GoodStep(d, a, x, AdoptReceipt(d, a, x).value)
    ensures SettleOpen(d, x).Some? ==> GoodStep(d, a, x, SettleOpen(d, x).value)
  {
    hide Frozen, LeasesOk, Continues, GoodStep;
    if AdoptReceipt(d, a, x).Some? { QuietStep(d, a, x, AdoptReceipt(d, a, x).value); }
    if SettleOpen(d, x).Some? { QuietStep(d, a, x, SettleOpen(d, x).value); }
  }

  lemma RehashStep(d: Disk, a: nat, x: Activator, s: Db)
    requires LocalOk(d, a, x) && Frozen(d)
    ensures RehashMember(d, x, s).Some? ==> GoodStep(d, a, x, RehashMember(d, x, s).value)
  {
    hide Frozen, GoodStep;
    if RehashMember(d, x, s).Some? { QuietStep(d, a, x, RehashMember(d, x, s).value); }
  }

  lemma LeaveStep(d: Disk, a: nat, x: Activator)
    requires LocalOk(d, a, x) && Frozen(d)
    ensures GoodStep(d, a, x, LeaveNow(d, x).value)
  {
    hide Frozen;
  }

  lemma ReleaseStep(d: Disk, a: nat, x: Activator, s: Db)
    requires LocalOk(d, a, x) && Frozen(d)
    ensures GiveBack(d, a, x, s).Some? ==> GoodStep(d, a, x, GiveBack(d, a, x, s).value)
  {
    hide Frozen;
    if GiveBack(d, a, x, s).Some? {
      assert Frozen(GiveBack(d, a, x, s).value.disk) by { FrozenSame(d, GiveBack(d, a, x, s).value.disk); }
    }
  }

  lemma FrozenSame(d: Disk, e: Disk)
    requires Frozen(d) && e.retired == d.retired && e.content == d.content
    ensures Frozen(e)
  {
  }

  /** The steps that publish nothing. */
  predicate Quiet(action: Action)
  {
    action.Preflight? || action.Acquire? || action.ReadFence? || action.Verify? || action.Judge? || action.Rehash?
    || action.Settle? || action.Leave?
  }

  lemma QuietDisk(w: World, a: nat, action: Action)
    requires a in w.activators && Quiet(action) && LocalStep(w, a, action).Some?
    ensures LocalStep(w, a, action).value.disk == w.disk
    ensures LocalStep(w, a, action).value.x.request == w.activators[a].request
  {
    hide LeasesOk, LeaseOk, Acceptable, Continues, HeldBySome, SharedBySome, RetirementAllows;
  }

  /** The steps that change only leases, markers and reservations. */
  predicate Bookkeeping(action: Action)
  {
    action.PublishLease? || action.Reserve? || action.Retire? || action.Commit? || action.Adopt? || action.Release?
  }

  lemma BookkeepingDisk(w: World, a: nat, action: Action)
    requires a in w.activators && Bookkeeping(action) && LocalStep(w, a, action).Some?
    ensures var d, e := w.disk, LocalStep(w, a, action).value.disk;
            e == d.(records := e.records, retired := e.retired, reservations := e.reservations)
    ensures LocalStep(w, a, action).value.x.request == w.activators[a].request
  {
    hide LeasesOk, Continues;
  }

  lemma ActionIsGood(w: World, a: nat, action: Action)
    requires a in w.activators && LocalOk(w.disk, a, w.activators[a]) && Frozen(w.disk)
    requires !action.Acquire?
    ensures var r := LocalStep(w, a, action); r.Some? ==> GoodStep(w.disk, a, w.activators[a], r.value)
  {
    var d, x := w.disk, w.activators[a];
    hide LocalOk, Frozen, GoodStep, PassPreflight, TakeLock, TakeFence, TakeLease, VerifySource, JudgeReplay, ReserveDest, RetireSource,
         OpenDest, PutGate, PutPending, CopyMember, PutReceipt, CommitReservation, RemovePending, RemoveGate,
         RehashMember, AdoptReceipt, SettleOpen, LeaveNow, GiveBack;
    PreflightStep(d, a, x);
    FenceStep(d, a, x);
    LeaseStep(d, a, x);
    DecisionSteps(d, a, x);
    OpenStep(d, a, x);
    GateSteps(d, a, x);
    PublishSteps(d, a, x);
    FinishSteps(d, a, x);
    SettleSteps(d, a, x);
    match action
    case Verify(s) => VerifyStep(d, a, x, s);
    case Retire(s) => RetireStep(d, a, x, s);
    case Copy(s) => CopyStep(d, a, x, s);
    case Rehash(s) => RehashStep(d, a, x, s);
    case Leave => LeaveStep(d, a, x);
    case Release(s) => ReleaseStep(d, a, x, s);
    case _ =>
  }

  // ---------------------------------------------------------------- every step keeps the invariant

  lemma AcquireKeeps(w: World, a: nat, s: Db)
    requires Inv(w) && a in w.activators && TakeLock(w, a, s).Some?
    ensures Inv(w.(activators := w.activators[a := TakeLock(w, a, s).value.x]))
  {
    var x := TakeLock(w, a, s).value.x;
    assert LocalOk(w.disk, a, w.activators[a]) by { hide LocalOk, Exclusive, Frozen; }
    assert LocalOk(w.disk, a, x) by { hide Inv; AcquireLocal(w, a, s); }
    hide Frozen, Retired, LocalOk, NoWriterOnRetired;
    assert Holds(x) == Holds(w.activators[a]) + {s};
    forall b | b in w.activators && b != a ensures s !in Holds(w.activators[b]) {
      assert !HeldBySome(w, s);
    }
    forall c | c in w.writers && Shares(w.writers[c]) ensures w.writers[c].db != s {
      assert !SharedBySome(w, s);
    }
  }

  lemma AcquireLocal(w: World, a: nat, s: Db)
    requires a in w.activators && LocalOk(w.disk, a, w.activators[a]) && TakeLock(w, a, s).Some?
    ensures LocalOk(w.disk, a, TakeLock(w, a, s).value.x)
  {
    hide HeldBySome, SharedBySome;
  }

  /** A framed step of one activation disturbs no other. */
  lemma OthersKept(w: World, a: nat, next: Local)
    requires Inv(w) && a in w.activators && Framed(w.disk, w.activators[a], next)
    ensures forall b :: b in w.activators && b != a ==> LocalOk(next.disk, b, w.activators[b])
  {
    hide LocalOk, Frozen, SameFor, Retired;
    forall b | b in w.activators && b != a ensures LocalOk(next.disk, b, w.activators[b]) {
      LocalKept(w.disk, next.disk, b, w.activators[b]);
    }
  }

  /** A good step of one activation keeps the invariant of the whole system. */
  lemma GoodStepKeeps(w: World, a: nat, next: Local, h: History)
    requires Inv(w) && a in w.activators && GoodStep(w.disk, a, w.activators[a], next)
    requires forall r :: r in h.placed ==> r in w.history.placed || (r == next.x.request && Retired(next.disk, r))
    requires forall r :: r in h.ungated ==> r in w.history.ungated || (r == next.x.request && Retired(next.disk, r))
    ensures Inv(w.(disk := next.disk, activators := w.activators[a := next.x], history := h))
  {
    hide LocalOk, Frozen, SameFor, Retired, Exclusive, NoWriterOnRetired, Framed;
    var x := w.activators[a];
    OthersKept(w, a, next);
    forall r | Retired(w.disk, r) ensures Retired(next.disk, r) { RetiredStays(w.disk, x, next, r); }
    LocksKept(w, a, next, h);
  }

  lemma RetiredStays(d: Disk, x: Activator, next: Local, r: Request)
    requires Framed(d, x, next) && Retired(d, r)
    ensures Retired(next.disk, r)
  {
    hide SameFor, Frozen;
  }

  /** Locks stay exclusive, and no connected writer sees its database retired. */
  lemma LocksKept(w: World, a: nat, next: Local, h: History)
    requires Exclusive(w) && NoWriterOnRetired(w) && a in w.activators && Framed(w.disk, w.activators[a], next)
    ensures var v := w.(disk := next.disk, activators := w.activators[a := next.x], history := h);
            Exclusive(v) && NoWriterOnRetired(v) && Frozen(v.disk)
  {
    hide SameFor, Frozen;
    forall c | c in w.writers && w.writers[c].phase.Connected? ensures w.writers[c].db !in next.disk.retired {
      assert w.writers[c].db !in Holds(w.activators[a]);
    }
  }

  /** Whoever puts a component in place or removes the gate has seen all sources retired. */
  lemma RetiredByThen(w: World, a: nat, action: Action)
    requires a in w.activators && LocalOk(w.disk, a, w.activators[a])
    requires action.Copy? || action.DropGate?
    ensures var r := LocalStep(w, a, action); r.Some? ==> Retired(r.value.disk, w.activators[a].request)
  {
    hide LeasesRight, LeasesOk;
  }

  lemma ActivationKeeps(w: World, a: nat, action: Action)
    requires Inv(w) && ActivationStep(w, a, action).Some?
    ensures Inv(ActivationStep(w, a, action).value)
  {
    hide LocalOk, Frozen, Exclusive, NoWriterOnRetired, Retired, GoodStep, LocalStep, Noted;
    Stepped(w, a, action);
    if action.Acquire? {
      AcquireShape(w, a, action);
      AcquireKeeps(w, a, action.s);
    } else {
      ActionIsGood(w, a, action);
      if action.Copy? || action.DropGate? {
        RetiredByThen(w, a, action);
      }
      PlacedGrows(w, a, action);
      GoodRequest(w, a, action);
      hide Inv, ActivationStep;
      GoodStepKeeps(w, a, LocalStep(w, a, action).value, Noted(w.history, action, w.disk, w.activators[a]));
    }
  }

  lemma Stepped(w: World, a: nat, action: Action)
    requires ActivationStep(w, a, action).Some?
    ensures a in w.activators && LocalStep(w, a, action).Some?
    ensures var next := LocalStep(w, a, action).value;
            ActivationStep(w, a, action) == Some(w.(
              disk := next.disk, activators := w.activators[a := next.x],
              history := Noted(w.history, action, w.disk, w.activators[a])))
  {
    hide LocalStep, Noted;
  }

  lemma AcquireShape(w: World, a: nat, action: Action)
    requires a in w.activators && action.Acquire? && LocalStep(w, a, action).Some?
    ensures LocalStep(w, a, action) == TakeLock(w, a, action.s) && LocalStep(w, a, action).value.disk == w.disk
    ensures Noted(w.history, action, w.disk, w.activators[a]) == w.history
  {
    hide HeldBySome, SharedBySome;
  }

  lemma PlacedGrows(w: World, a: nat, action: Action)
    requires a in w.activators
    ensures var h, r := Noted(w.history, action, w.disk, w.activators[a]), w.activators[a].request;
            && h.placed <= w.history.placed + (if action.Copy? then {r} else {})
            && h.ungated <= w.history.ungated + (if action.DropGate? then {r} else {})
  {
  }

  lemma GoodRequest(w: World, a: nat, action: Action)
    requires a in w.activators && LocalStep(w, a, action).Some?
    requires GoodStep(w.disk, a, w.activators[a], LocalStep(w, a, action).value)
    ensures LocalStep(w, a, action).value.x.request == w.activators[a].request
  {
    hide LocalOk, LocalStep, SameFor, Frozen;
  }

  lemma WriteKeeps(w: World, c: nat, value: string)
    requires Inv(w) && ClientStep(w, c, Write(value)).Some?
    ensures Inv(ClientStep(w, c, Write(value)).value)
  {
    hide LocalOk, Retired, Frozen;
    var v := ClientStep(w, c, Write(value)).value;
    var db := w.writers[c].db;
    forall a | a in w.activators ensures LocalOk(v.disk, a, w.activators[a]) {
      assert db !in Holds(w.activators[a]);
      LocalKept(w.disk, v.disk, a, w.activators[a]);
    }
    RetiredSame(w, v);
    FrozenButOne(w.disk, v.disk, db);
  }

  lemma FrozenButOne(d: Disk, e: Disk, db: Db)
    requires Frozen(d) && e.retired == d.retired && db !in d.retired
    requires forall s :: s in d.content && s != db ==> s in e.content && e.content[s] == d.content[s]
    ensures Frozen(e)
  {
  }

  lemma ClientKeeps(w: World, c: nat, use: Use)
    requires Inv(w) && ClientStep(w, c, use).Some? && !use.Write?
    ensures Inv(ClientStep(w, c, use).value)
  {
    hide Retired, LocalOk, Frozen;
    if use.Enter? {
      assert !HeldBySome(w, w.writers[c].db);
    }
  }

  /** Requests whose sources are retired stay so while the markers stay. */
  lemma RetiredSame(w: World, v: World)
    requires v.disk.retired == w.disk.retired
    requires v.history.placed == w.history.placed && v.history.ungated == w.history.ungated
    requires forall r :: r in w.history.placed + w.history.ungated ==> Retired(w.disk, r)
    ensures forall r :: r in w.history.placed + w.history.ungated ==> Retired(v.disk, r)
  {
  }

  lemma LossKeeps(w: World, d: Dir)
    requires Inv(w) && MayLose(w, d)
    ensures Inv(Next(w, LoseDir(d)).value)
  {
    var e := WithoutDir(w.disk, d);
    hide LocalOk, Retired, Frozen;
    forall a | a in w.activators ensures LocalOk(e, a, w.activators[a]) {
      LocalKept(w.disk, e, a, w.activators[a]);
    }
    FrozenElsewhere(w.disk, d);
    RetiredSame(w, Next(w, LoseDir(d)).value);
    hide MayLose, WithoutDir;
  }

  lemma FrozenElsewhere(d: Disk, t: Dir)
    requires Frozen(d) && forall s :: s in d.retired ==> s.dir != t
    ensures Frozen(WithoutDir(d, t)) && WithoutDir(d, t).retired == d.retired
  {
  }

  lemma BeginKeeps(w: World, a: nat, r: Request)
    requires Inv(w) && a !in w.activators && r.members != map[] && WellNamed(r)
    ensures Inv(w.(activators := w.activators[a := Activator(r, Preparing, map[], {})]))
  {
    hide Frozen, Retired;
  }

  lemma StopKeeps(w: World, a: nat)
    requires Inv(w) && a in w.activators
    ensures Inv(w.(activators := w.activators - {a}))
  {
    hide Frozen, Retired, LocalOk;
  }

  lemma ReservationLossKeeps(w: World, d: Dir)
    requires Inv(w)
    ensures Inv(Next(w, LoseReservation(d)).value)
  {
    var v := Next(w, LoseReservation(d)).value;
    hide LocalOk, Retired, Frozen;
    forall a | a in w.activators ensures LocalOk(v.disk, a, w.activators[a]) {
      LocalKept(w.disk, v.disk, a, w.activators[a]);
    }
    FrozenSame(w.disk, v.disk);
    RetiredSame(w, v);
  }

  lemma InvStep(w: World, e: Event)
    requires Inv(w) && Next(w, e).Some?
    ensures Inv(Next(w, e).value)
  {
    match e
    case Begin(a, r) =>
      hide Inv;
      BeginKeeps(w, a, r);
    case Act(a, action) =>
      hide Inv, ActivationStep;
      ActivationKeeps(w, a, action);
    case Stop(a) =>
      hide Inv;
      StopKeeps(w, a);
    case Client(c, use) =>
      hide Inv, ClientStep;
      if use.Write? {
        WriteKeeps(w, c, use.value);
      } else {
        ClientKeeps(w, c, use);
      }
    case LoseDir(d) =>
      hide Inv, WithoutDir;
      LossKeeps(w, d);
    case LoseReservation(d) =>
      hide Inv;
      ReservationLossKeeps(w, d);
  }

  lemma {:induction false} InvAlways(start: World, run: seq<Event>)
    requires Initial(start) && After(start, run).Some?
    ensures Inv(After(start, run).value)
    decreases |run|
  {
    hide Next;
    if run != [] {
      InvAlways(start, run[..|run| - 1]);
      hide Inv;
      InvStep(After(start, run[..|run| - 1]).value, run[|run| - 1]);
    }
  }
}
