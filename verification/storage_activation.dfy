/** One activation as storage_activation.py runs it, from preflight to the removal of the gate:
    a sequential program whose every statement is a step of the handoff protocol. */
module StorageActivation {
  import opened StrictJson
  import opened HandoffProtocol
  import opened HandoffSafety
  import opened HandoffLaws
  import opened HandoffContents
  import opened HandoffResume

  // ---------------------------------------------------------------- when an activation succeeds

  /** Nobody else holds the source, and it still is what the snapshot recorded. */
  ghost predicate SourceFine(w: World, a: nat, r: Request, s: Db)
    requires s in r.members
  {
    && s.dir !in w.disk.gates && s.dir != r.dest
    && s in w.disk.content && w.disk.content[s] == r.members[s].content
    && (s in w.disk.retired ==> w.disk.retired[s] == r)
    && (forall b :: b in w.activators && b != a ==> s !in Holds(w.activators[b]))
    && (forall c :: c in w.writers && Shares(w.writers[c]) ==> w.writers[c].db != s)
  }

  ghost predicate SourcesFine(w: World, a: nat, r: Request)
  {
    forall s :: s in r.members ==> SourceFine(w, a, r, s)
  }

  /** The destination is this activation's to continue, or there is no trace of it. */
  predicate DestFree(d: Disk, r: Request)
  {
    if r.dest in d.reservations then DestReady(d, r)
    else
      && r.dest !in d.dirs && r.dest !in d.receipts && r.dest !in d.pending
      && (forall s :: s in d.content ==> s.dir != r.dest) && (forall s :: s in d.records ==> s.dir != r.dest)
      && (forall s :: s in r.members ==> s !in d.retired)
  }

  ghost predicate Admissible(w: World, a: nat, r: Request)
  {
    r.members != map[] && WellNamed(r) && SourcesFine(w, a, r) && DestFree(w.disk, r)
  }

  /** The successor is open for writers and every source is retired for it. */
  predicate Delivered(d: Disk, r: Request)
  {
    && r.dest in d.dirs && r.dest !in d.gates
    && r.dest in d.receipts && d.receipts[r.dest] == r
    && r.dest in d.reservations && d.reservations[r.dest] == Reservation(r, true)
    && ComponentsExist(d, r) && Retired(d, r)
  }

  // ---------------------------------------------------------------- what its own steps preserve

  /** Only raising the gate adds one. */
  lemma GatesMove(w: World, a: nat, action: Action)
    requires a in w.activators && LocalStep(w, a, action).Some?
    ensures var e := LocalStep(w, a, action).value.disk;
            e.gates <= w.disk.gates + if action.RaiseGate? then {w.activators[a].request.dest} else {}
  {
    hide LeasesOk, ComponentsExist, Initializing, Acceptable, HeldBySome, SharedBySome, RetirementAllows, Continues;
  }

  lemma ContentGrows(w: World, a: nat, action: Action)
    requires a in w.activators && LocalStep(w, a, action).Some?
    ensures forall s :: s in w.disk.content ==>
      s in LocalStep(w, a, action).value.disk.content
      && LocalStep(w, a, action).value.disk.content[s] == w.disk.content[s]
  {
    if Quiet(action) {
      hide LocalStep;
      QuietDisk(w, a, action);
    } else {
      hide LeasesOk, ComponentsExist, Initializing, Acceptable, Continues, HeldBySome, SharedBySome, RetirementAllows;
    }
  }

  lemma RequestKept(w: World, a: nat, action: Action)
    requires a in w.activators && LocalStep(w, a, action).Some?
    ensures LocalStep(w, a, action).value.x.request == w.activators[a].request
  {
    hide LeasesOk, ComponentsExist, Initializing, Acceptable, Continues, HeldBySome, SharedBySome, RetirementAllows;
  }

  lemma FineKept(w: World, a: nat, action: Action, r: Request)
    requires ActivationStep(w, a, action).Some? && w.activators[a].request == r && SourcesFine(w, a, r)
    ensures SourcesFine(ActivationStep(w, a, action).value, a, r)
    ensures ActivationStep(w, a, action).value.activators[a].request == r
  {
    hide LocalStep, Noted;
    ContentGrows(w, a, action);
    RequestKept(w, a, action);
    GatesMove(w, a, action);
    MarkersChange(w, a, action);
    var v := ActivationStep(w, a, action).value;
    forall s | s in r.members ensures SourceFine(v, a, r, s) {
      assert SourceFine(w, a, r, s);
    }
  }

  /** With fine sources, leases that are held also check. */
  lemma FineLeases(w: World, a: nat, r: Request)
    requires a in w.activators && w.activators[a].request == r && LocalOk(w.disk, a, w.activators[a])
    requires SourcesFine(w, a, r) && Leased(w.activators[a].phase)
    ensures LeasesOk(w.disk, a, w.activators[a])
  {
    hide SourcesRight;
    forall s | s in r.members ensures LeaseOk(w.disk, a, w.activators[a], s) {
      assert SourceFine(w, a, r, s);
    }
  }

  /** Before the reservation, a destination that is free stays so. */
  lemma FreeKept(w: World, a: nat, action: Action, r: Request)
    requires ActivationStep(w, a, action).Some? && w.activators[a].request == r && DestFree(w.disk, r)
    requires LocalOk(w.disk, a, w.activators[a]) && !PastReserve(w.activators[a].phase) && !action.Reserve?
    ensures DestFree(ActivationStep(w, a, action).value.disk, r)
  {
    hide LocalStep, Noted, SourcesRight, LeasesRight;
    EarlySame(w, a, action, r.dest);
    EarlyRecords(w, a, action);
    if r.dest in w.disk.reservations {
      hide DestReady;
      SameDestReady(w.disk, ActivationStep(w, a, action).value.disk, r);
    }
  }

  /** The reservation makes a free destination this activation's own. */
  lemma ReserveWorks(w: World, a: nat, r: Request)
    requires a in w.activators && w.activators[a].request == r && w.activators[a].phase.Reserving? && DestFree(w.disk, r)
    ensures ReserveDest(w.disk, w.activators[a]).Some?
    ensures DestReady(ReserveDest(w.disk, w.activators[a]).value.disk, r)
  {
  }

  // ---------------------------------------------------------------- after the reservation

  /** Everything that the rest of the activation relies on. */
  ghost predicate Working(w: World, a: nat, r: Request)
  {
    && a in w.activators && w.activators[a].request == r && WellNamed(r)
    && SourcesFine(w, a, r) && AtWork(w.disk, w.activators[a])
    && (r.dest in w.disk.pending ==> r.dest in w.disk.gates)
  }

  lemma WorkingKept(w: World, a: nat, action: Action, r: Request)
    requires Working(w, a, r) && ActivationStep(w, a, action).Some?
    ensures var v := ActivationStep(w, a, action).value;
            && (PastReserve(v.activators[a].phase) ==> Working(v, a, r))
            && DestReady(v.disk, r) && v.activators[a].request == r
  {
    FineKept(w, a, action, r);
    var x := w.activators[a];
    assert AtWork(w.disk, x) && DestRight(w.disk, x) && PastReserve(x.phase);
    var v := ActivationStep(w, a, action).value;
    hide LocalStep, Noted, SourcesFine, DestRight, StandsRight, DestReady, WellNamed, Continues;
    ActionIsSteady(w, a, action);
    WorkAdvances(w, a, action);
    DirsFiled(w, a, action);
  }

  /** Receipts and pending records of the destination lie in it. */
  lemma DirsFiled(w: World, a: nat, action: Action)
    requires a in w.activators && PastReserve(w.activators[a].phase) && LocalStep(w, a, action).Some?
    ensures var d, e, t := w.disk, LocalStep(w, a, action).value.disk, w.activators[a].request.dest;
            (t in d.dirs <== t in d.receipts || t in d.pending) ==> (t in e.dirs <== t in e.receipts || t in e.pending)
  {
    hide LeasesOk, ComponentsExist, Initializing, Acceptable, Continues, HeldBySome, SharedBySome, RetirementAllows;
  }

  /** Opening the destination succeeds, whatever an earlier attempt left of it. */
  lemma OpenWorks(w: World, a: nat, r: Request)
    requires Inv(w) && Working(w, a, r)
    requires w.activators[a].phase.Retiring? && w.activators[a].done == r.members.Keys
    ensures OpenDest(w.disk, a, w.activators[a]).Some?
    ensures var y := OpenDest(w.disk, a, w.activators[a]).value.x;
            && y.done == {}
            && (y.phase.Gating? || y.phase.Copying? || y.phase.Rehashing? || (y.phase.Settling? && r.dest !in w.disk.gates))
  {
    var x := w.activators[a];
    assert LocalOk(w.disk, a, x) by { hide LocalOk, Working; }
    FineLeases(w, a, r);
    assert DestReady(w.disk, r) by { hide Inv, DestReady, LocalOk; }
    hide Inv, LocalOk, LeasesOk, SourcesFine, Initializing, ComponentsExist, AllRight, PartlyRight;
  }

  lemma FillWorks(w: World, a: nat, r: Request)
    requires Working(w, a, r)
    ensures w.activators[a].phase.Gating? ==> PutGate(w.disk, w.activators[a]).Some?
    ensures w.activators[a].phase.Announcing? ==> PutPending(w.disk, w.activators[a]).Some?
    ensures w.activators[a].phase.Ungating? ==> RemoveGate(w.disk, w.activators[a]).Some?
  {
    hide SourcesFine, DestRight, DestReady, WellNamed;
  }

  lemma CopyWorks(w: World, a: nat, r: Request, s: Db)
    requires Inv(w) && Working(w, a, r) && s in r.members
    ensures w.activators[a].phase.Copying? ==> CopyMember(w.disk, a, w.activators[a], s).Some?
    ensures w.activators[a].phase.Copying? && w.activators[a].done == r.members.Keys ==>
      PutReceipt(w.disk, a, w.activators[a]).Some?
    ensures w.activators[a].phase.Rehashing? ==> RehashMember(w.disk, w.activators[a], s).Some?
    ensures w.activators[a].phase.Rehashing? && w.activators[a].done == r.members.Keys ==>
      AdoptReceipt(w.disk, a, w.activators[a]).Some?
  {
    var x := w.activators[a];
    if x.phase.Copying? || x.phase.Rehashing? {
      assert LocalOk(w.disk, a, x) by { hide LocalOk, Working; }
      FineLeases(w, a, r);
      assert DestReady(w.disk, r) by { hide Inv, DestReady, LocalOk; }
      hide Inv, LocalOk, LeasesOk, SourcesFine, Initializing, ComponentsRight, Continues;
      assert x.phase.Copying? && Component(r, s) in w.disk.content ==> ComponentRight(w.disk, r, s);
      assert x.phase.Rehashing? ==> ComponentRight(w.disk, r, s);
    }
  }

  lemma SettleWorks(w: World, a: nat, r: Request)
    requires Working(w, a, r) && w.activators[a].phase.Settling? && r.dest !in w.disk.gates
    ensures SettleOpen(w.disk, w.activators[a]).Some?
  {
    hide SourcesFine, DestRight, ComponentsExist, AllRight, PartlyRight, Initializing;
  }

  // ---------------------------------------------------------------- what its own steps achieve

  /** The phases in which the receipt lies in the destination. */
  predicate Certain(p: Phase) { p.Committing? || p.Clearing? || p.Ungating? || p.Rehashing? || p.Settling? }

  /** What an activation that nobody disturbs has achieved so far, whatever it started from. */
  ghost predicate Achieved(d: Disk, x: Activator)
  {
    var r, t, p := x.request, x.request.dest, x.phase;
    && (Inside(p) ==> t in d.dirs) && (p.Gating? || p.Announcing? ==> x.done == {})
    && (p.Copying? ==> forall s :: s in r.members && s in x.done ==> Component(r, s) in d.content)
    && (Certain(p) ==> t in d.receipts && d.receipts[t] == r && ComponentsExist(d, r))
    && (p.Clearing? || p.Ungating? ==> t in d.reservations && d.reservations[t] == Reservation(r, true))
    && (p.Settling? ==> t !in d.gates)
  }

  /** The successor is complete, committed and open. */
  predicate Opened(d: Disk, r: Request)
  {
    && r.dest in d.dirs && r.dest !in d.gates && r.dest in d.receipts && d.receipts[r.dest] == r
    && r.dest in d.reservations && d.reservations[r.dest] == Reservation(r, true) && ComponentsExist(d, r)
  }

  /** The step that ends a successful activation. */
  predicate Finishing(action: Action) { action.DropGate? || action.Settle? }

  ghost predicate Achieves(x: Activator, action: Action, next: Local)
  {
    Achieved(next.disk, next.x) && (Finishing(action) ==> Opened(next.disk, x.request) && next.x.phase.Leaving?)
  }

  lemma OpenAchieves(d: Disk, a: nat, x: Activator)
    requires Achieved(d, x)
    ensures OpenDest(d, a, x).Some? ==> Achieves(x, Open, OpenDest(d, a, x).value)
  {
    hide LeasesOk, Initializing, ComponentsExist;
  }

  lemma FillAchieves(d: Disk, x: Activator)
    requires Achieved(d, x)
    ensures PutGate(d, x).Some? ==> Achieves(x, RaiseGate, PutGate(d, x).value)
    ensures PutPending(d, x).Some? ==> Achieves(x, Announce, PutPending(d, x).value)
  {
    hide ComponentsExist;
  }

  lemma CopyAchieves(d: Disk, a: nat, x: Activator, s: Db)
    requires Achieved(d, x)
    ensures CopyMember(d, a, x, s).Some? ==> Achieves(x, Copy(s), CopyMember(d, a, x, s).value)
  {
    hide LeasesOk, ComponentsExist;
  }

  lemma ReceiptAchieves(d: Disk, a: nat, x: Activator)
    requires Achieved(d, x)
    ensures PutReceipt(d, a, x).Some? ==> Achieves(x, WriteReceipt, PutReceipt(d, a, x).value)
  {
    hide LeasesOk;
  }

  lemma CommitAchieves(d: Disk, a: nat, x: Activator)
    requires Achieved(d, x)
    ensures CommitReservation(d, x).Some? ==> Achieves(x, Commit, CommitReservation(d, x).value)
    ensures AdoptReceipt(d, a, x).Some? ==> Achieves(x, Adopt, AdoptReceipt(d, a, x).value)
  {
    hide LeasesOk;
    assert forall e: Disk :: e.content == d.content ==> ComponentsExist(e, x.request) == ComponentsExist(d, x.request);
    hide ComponentsExist;
  }

  lemma FinishAchieves(d: Disk, x: Activator)
    requires Achieved(d, x)
    ensures RemovePending(d, x).Some? ==> Achieves(x, ClearPending, RemovePending(d, x).value)
    ensures RemoveGate(d, x).Some? ==> Achieves(x, DropGate, RemoveGate(d, x).value)
    ensures SettleOpen(d, x).Some? ==> Achieves(x, Settle, SettleOpen(d, x).value)
  {
    assert forall e: Disk :: e.content == d.content ==> ComponentsExist(e, x.request) == ComponentsExist(d, x.request);
    hide ComponentsExist;
  }

  lemma RestAchieves(d: Disk, x: Activator, s: Db)
    requires Achieved(d, x)
    ensures RetireSource(d, x, s).Some? ==> Achieves(x, Retire(s), RetireSource(d, x, s).value)
    ensures RehashMember(d, x, s).Some? ==> Achieves(x, Rehash(s), RehashMember(d, x, s).value)
    ensures Achieves(x, Leave, LeaveNow(d, x).value)
  {
    hide ComponentsExist;
  }

  /** No step before the reservation enters the destination. */
  lemma StaysOutside(w: World, a: nat, action: Action)
    requires a in w.activators && !PastReserve(w.activators[a].phase) && LocalStep(w, a, action).Some?
    ensures !Inside(LocalStep(w, a, action).value.x.phase) && !Finishing(action)
  {
    hide LeasesOk, ComponentsExist, Initializing, Acceptable, Continues, HeldBySome, SharedBySome, RetirementAllows;
  }

  lemma ActionAchieves(w: World, a: nat, action: Action)
    requires a in w.activators && LocalStep(w, a, action).Some? && Achieved(w.disk, w.activators[a])
    ensures Achieves(w.activators[a], action, LocalStep(w, a, action).value)
  {
    var d, x := w.disk, w.activators[a];
    if !PastReserve(x.phase) {
      hide LocalStep;
      StaysOutside(w, a, action);
    } else {
      hide Achieved, Achieves, OpenDest, PutGate, PutPending, PutReceipt, CommitReservation, RemovePending, RemoveGate,
           AdoptReceipt, CopyMember, RetireSource, RehashMember, SettleOpen, LeaveNow;
      match action
      case Retire(s) => RestAchieves(d, x, s);
      case Open => OpenAchieves(d, a, x);
      case RaiseGate => FillAchieves(d, x);
      case Announce => FillAchieves(d, x);
      case Copy(s) => CopyAchieves(d, a, x, s);
      case WriteReceipt => ReceiptAchieves(d, a, x);
      case Commit => CommitAchieves(d, a, x);
      case Adopt => CommitAchieves(d, a, x);
      case ClearPending => FinishAchieves(d, x);
      case DropGate => FinishAchieves(d, x);
      case Rehash(s) => RestAchieves(d, x, s);
      case Settle => FinishAchieves(d, x);
      case Leave => RestAchieves(d, x, Db("", ""));
      case _ =>
    }
  }

  // ---------------------------------------------------------------- the program

  /** The events since `older` all belong to activation `a`. */
  ghost predicate OwnEvents(a: nat, older: seq<Event>, newer: seq<Event>)
  {
    older <= newer && forall i :: |older| <= i < |newer| ==> IsOwn(a, newer[i])
  }

  /** An own event that ends an activation successfully. */
  predicate IsFinish(a: nat, e: Event) { e.Act? && e.a == a && Finishing(e.action) }

  /** The events since `older` are its own, and none of them ends it successfully. */
  ghost predicate OnTheWay(a: nat, older: seq<Event>, newer: seq<Event>)
  {
    older <= newer && forall i :: |older| <= i < |newer| ==> IsOwn(a, newer[i]) && !IsFinish(a, newer[i])
  }

  /** The activation has taken its last step since `older`. */
  ghost predicate Finished(a: nat, older: seq<Event>, newer: seq<Event>)
  {
    exists i :: |older| <= i < |newer| && IsFinish(a, newer[i])
  }

  /** Whether an activation has finished is settled by what it did last. */
  lemma Finishes(a: nat, x: seq<Event>, y: seq<Event>, z: seq<Event>)
    requires OnTheWay(a, x, y) && OwnEvents(a, y, z)
    ensures OwnEvents(a, x, z) && (Finished(a, x, z) <==> Finished(a, y, z))
  {
    if Finished(a, x, z) {
      var i :| |x| <= i < |z| && IsFinish(a, z[i]);
      assert y == z[..|y|];
      assert i >= |y|;
    }
  }

  lemma NotFinished(a: nat, x: seq<Event>, y: seq<Event>)
    requires OnTheWay(a, x, y)
    ensures OwnEvents(a, x, y) && !Finished(a, x, y)
  {
  }

  lemma StillOnTheWay(a: nat, x: seq<Event>, y: seq<Event>, e: Event)
    requires (x == y || OnTheWay(a, x, y)) && IsOwn(a, e) && !IsFinish(a, e)
    ensures OnTheWay(a, x, y + [e])
  {
  }

  lemma OpenedDelivers(d: Disk, r: Request)
    requires Opened(d, r) && Retired(d, r)
    ensures Delivered(d, r)
  {
    hide ComponentsExist, Retired;
  }

  lemma FinishedLeaving(a: nat, x: seq<Event>, y: seq<Event>, z: seq<Event>)
    requires OwnEvents(a, x, y) && OnTheWay(a, y, z)
    ensures OwnEvents(a, x, z) && (Finished(a, x, z) <==> Finished(a, x, y))
  {
    if Finished(a, x, y) {
      var i :| |x| <= i < |y| && IsFinish(a, y[i]);
      assert IsFinish(a, z[i]);
    }
    if Finished(a, x, z) {
      var i :| |x| <= i < |z| && IsFinish(a, z[i]);
      assert i < |y| ==> z[i] == y[i];
    }
  }

  lemma OneEvent(a: nat, x: seq<Event>, action: Action, taken: bool)
    ensures var y := if taken then x + [Act(a, action)] else x;
            OwnEvents(a, x, y) && (Finished(a, x, y) <==> taken && Finishing(action)) && (!(taken && Finishing(action)) ==> OnTheWay(a, x, y))
  {
    if taken {
      var y := x + [Act(a, action)];
      assert y[|x|] == Act(a, action);
      assert Finishing(action) ==> IsFinish(a, y[|x|]);
    }
  }

  predicate IsOwn(a: nat, e: Event)
  {
    match e
    case Begin(b, _) => b == a
    case Act(b, _) => b == a
    case Stop(b) => b == a
    case _ => false
  }

  lemma {:induction false} Extended(start: World, trace: seq<Event>, w: World, e: Event)
    requires After(start, trace) == Some(w) && Next(w, e).Some?
    ensures After(start, trace + [e]) == Next(w, e)
  {
    hide Next;
    assert (trace + [e])[..|trace + [e]| - 1] == trace;
  }

  /** Lease records without their holders. */
  function GivenBack(records: map<Db, Record>, leases: map<Db, nat>): map<Db, Record>
  {
    map s | s in records :: if s in leases then Record(leases[s], None) else records[s]
  }

  lemma AllGone(leases: map<Db, nat>, gone: map<Db, nat>)
    requires leases - gone.Keys == map[] && gone.Keys <= leases.Keys && forall s :: s in gone ==> gone[s] == leases[s]
    ensures gone == leases
  {
    forall s | s in leases ensures s in gone {
      assert s !in leases - gone.Keys;
    }
  }

  /** The leases that an activation holds are the ones on record. */
  lemma LeasesRecorded(w: World, a: nat)
    requires Inv(w) && a in w.activators
    ensures forall s :: s in w.activators[a].leases ==>
      s in w.disk.records && w.disk.records[s] == Record(w.activators[a].leases[s], Some(a))
  {
    assert LocalOk(w.disk, a, w.activators[a]);
  }

  class Host {
    /** The run so far, from a world before any activation. */
    ghost const start: World
    ghost var trace: seq<Event>
    var w: World

    ghost predicate Valid()
      reads this
    {
      Initial(start) && After(start, trace) == Some(w)
    }

    constructor (w: World)
      requires Initial(w)
      ensures Valid() && this.w == w && trace == []
    {
      this.w, start, trace := w, w, [];
    }

    method Step(a: nat, action: Action) returns (ok: bool)
      requires Valid() && a in w.activators
      modifies this
      ensures Valid() && trace == (if ok then old(trace) + [Act(a, action)] else old(trace)) && a in w.activators
      ensures ok <==> LocalStep(old(w), a, action).Some?
      ensures ok ==> Some(w) == ActivationStep(old(w), a, action)
      ensures !ok ==> w == old(w)
    {
      hide LocalStep, Initial, Noted;
      var next := LocalStep(w, a, action);
      if next.None? {
        return false;
      }
      Extended(start, trace, w, Act(a, action));
      trace := trace + [Act(a, action)];
      w := w.(disk := next.value.disk, activators := w.activators[a := next.value.x],
              history := Noted(w.history, action, w.disk, w.activators[a]));
      return true;
    }

    /** What is known between the statements of an activation before its reservation. */
    ghost predicate Running(a: nat, r: Request)
      reads this
    {
      Valid() && a in w.activators && w.activators[a].request == r && Achieved(w.disk, w.activators[a])
    }

    ghost predicate Hopeful(a: nat, r: Request)
      reads this
    {
      a in w.activators && r.members != map[] && WellNamed(r) && SourcesFine(w, a, r) && DestFree(w.disk, r)
    }

    /** A step before the reservation. */
    method EarlyStep(a: nat, action: Action, r: Request) returns (ok: bool)
      requires Running(a, r) && !PastReserve(w.activators[a].phase) && !action.Reserve?
      modifies this
      ensures Running(a, r) && OnTheWay(a, old(trace), trace)
      ensures ok <==> LocalStep(old(w), a, action).Some?
      ensures if ok then Some(w) == ActivationStep(old(w), a, action) else w == old(w)
      ensures ok && old(Hopeful(a, r)) ==> Hopeful(a, r)
    {
      hide Initial, After, SourcesFine, DestFree, WellNamed, LocalStep, ActivationStep, Inv, Achieved;
      InvAlways(start, trace);
      ghost var before, older := w, trace;
      ok := Step(a, action);
      if ok {
        EarlyProgress(before, a, action, r);
        StepAchieves(before, a, action);
        StaysOutside(before, a, action);
      }
      OneEvent(a, older, action, ok);
    }

    method LockSource(a: nat, r: Request, s: Db) returns (ok: bool)
      requires Running(a, r) && w.activators[a].phase.Locking? && s in r.members && s !in w.activators[a].leases
      modifies this
      ensures Running(a, r) && OnTheWay(a, old(trace), trace)
      ensures ok ==> w.activators[a].leases.Keys == old(w.activators[a].leases.Keys) + {s} && w.activators[a].done == old(w.activators[a].done)
      ensures ok ==> w.activators[a].phase == if w.activators[a].leases.Keys == r.members.Keys then Verifying else Locking
      ensures old(Hopeful(a, r)) ==> ok && Hopeful(a, r)
    {
      hide Initial, After, SourceFine, DestFree, WellNamed, TakeLock, LocalStep, ActivationStep;
      AcquireWorks(w, a, r, s);
      ok := EarlyStep(a, Acquire(s), r);
      if !ok { return; }
      FenceWorks(w, a, r);
      ok := EarlyStep(a, ReadFence, r);
      if !ok { return; }
      LeaseWorks(w, a, r);
      ok := EarlyStep(a, PublishLease, r);
    }

    method LockSources(a: nat, r: Request) returns (ok: bool)
      requires Running(a, r) && w.activators[a] == Activator(r, Locking, map[], {}) && r.members != map[]
      modifies this
      ensures Running(a, r) && OnTheWay(a, old(trace), trace)
      ensures ok ==> w.activators[a].phase.Verifying? && w.activators[a].done == {}
      ensures old(Hopeful(a, r)) ==> ok && Hopeful(a, r)
    {
      hide Initial, After, SourcesFine, DestFree, WellNamed;
      var rest := r.members.Keys;
      while rest != {}
        invariant rest <= r.members.Keys && Running(a, r) && OnTheWay(a, old(trace), trace)
        invariant w.activators[a].leases.Keys == r.members.Keys - rest && w.activators[a].done == {}
        invariant w.activators[a].phase == if rest == {} then Verifying else Locking
        invariant old(Hopeful(a, r)) ==> Hopeful(a, r)
        decreases |rest|
      {
        var s :| s in rest;
        ghost var before := trace;
        ok := LockSource(a, r, s);
        if !ok { return; }
        rest := rest - {s};
        assert r.members.Keys - rest == w.activators[a].leases.Keys;
      }
      return true;
    }

    method VerifySources(a: nat, r: Request) returns (ok: bool)
      requires Running(a, r) && w.activators[a].phase.Verifying? && w.activators[a].done == {}
      modifies this
      ensures Running(a, r) && OnTheWay(a, old(trace), trace)
      ensures ok ==> w.activators[a].phase.Reserving?
      ensures old(Hopeful(a, r)) ==> ok && Hopeful(a, r)
    {
      hide Initial, After, SourcesFine, DestFree, WellNamed, LocalStep, ActivationStep;
      var rest := r.members.Keys;
      while rest != {}
        invariant rest <= r.members.Keys && Running(a, r) && OnTheWay(a, old(trace), trace)
        invariant w.activators[a].phase.Verifying? && w.activators[a].done == r.members.Keys - rest
        invariant old(Hopeful(a, r)) ==> Hopeful(a, r)
        decreases |rest|
      {
        var s :| s in rest;
        VerifyWorks(this, a, r, s);
        ok := EarlyStep(a, Verify(s), r);
        if !ok { return; }
        rest := rest - {s};
      }
      JudgeWorks(w, a, r);
      ok := EarlyStep(a, Judge, r);
    }

    method ReserveDestination(a: nat, r: Request) returns (ok: bool)
      requires Running(a, r) && w.activators[a].phase.Reserving?
      modifies this
      ensures Running(a, r) && OnTheWay(a, old(trace), trace)
      ensures ok ==> w.activators[a].phase.Retiring? && w.activators[a].done == {}
      ensures old(Hopeful(a, r)) ==> ok && Working(w, a, r)
    {
      hide Initial, After, SourcesFine, DestFree, WellNamed, LocalStep, ActivationStep, Working, Achieved;
      ghost var before, older := w, trace;
      ok := Step(a, Reserve);
      Reserved(before, a, r);
      if ok { StepAchieves(before, a, Reserve); }
      OneEvent(a, older, Reserve, ok);
    }

    /** A step after the reservation. */
    method LateStep(a: nat, action: Action, r: Request) returns (ok: bool)
      requires Running(a, r) && PastReserve(w.activators[a].phase)
      modifies this
      ensures Running(a, r) && OwnEvents(a, old(trace), trace)
      ensures if ok && Finishing(action) then Finished(a, old(trace), trace) && Opened(w.disk, r) else OnTheWay(a, old(trace), trace)
      ensures ok <==> LocalStep(old(w), a, action).Some?
      ensures ok ==> Some(w) == ActivationStep(old(w), a, action)
      ensures ok && old(Working(w, a, r)) ==> DestReady(w.disk, r) && (PastReserve(w.activators[a].phase) ==> Working(w, a, r))
    {
      hide Initial, After, LocalStep, ActivationStep, Working, Achieved, Opened;
      ghost var before, older := w, trace;
      ok := Step(a, action);
      if ok {
        StepAchieves(before, a, action);
        if Working(before, a, r) { WorkingKept(before, a, action, r); }
      }
      OneEvent(a, older, action, ok);
    }

    method RetireSources(a: nat, r: Request) returns (ok: bool)
      requires Running(a, r) && w.activators[a].phase.Retiring? && w.activators[a].done == {}
      modifies this
      ensures Running(a, r) && OnTheWay(a, old(trace), trace)
      ensures ok ==> w.activators[a].phase.Retiring? && w.activators[a].done == r.members.Keys
      ensures old(Working(w, a, r)) ==> ok && Working(w, a, r)
    {
      hide Initial, After, LocalStep, ActivationStep, Working;
      var rest := r.members.Keys;
      while rest != {}
        invariant rest <= r.members.Keys && Running(a, r) && OnTheWay(a, old(trace), trace)
        invariant w.activators[a].phase.Retiring? && w.activators[a].done == r.members.Keys - rest
        invariant old(Working(w, a, r)) ==> Working(w, a, r)
        decreases |rest|
      {
        var s :| s in rest;
        RetireWorks(w, a, r, s);
        ok := LateStep(a, Retire(s), r);
        if !ok { return; }
        rest := rest - {s};
      }
      return true;
    }

    /** Copy every component that is not there yet, then publish the receipt. */
    method CopyComponents(a: nat, r: Request) returns (ok: bool)
      requires Running(a, r) && w.activators[a].phase.Copying? && w.activators[a].done == {}
      modifies this
      ensures Running(a, r) && OnTheWay(a, old(trace), trace)
      ensures ok ==> w.activators[a].phase.Committing?
      ensures old(Working(w, a, r)) ==> ok && Working(w, a, r)
    {
      hide Initial, After, LocalStep, ActivationStep, Working, Achieved, Opened;
      var rest := r.members.Keys;
      while rest != {}
        invariant rest <= r.members.Keys && Running(a, r) && OnTheWay(a, old(trace), trace)
        invariant w.activators[a].phase.Copying? && w.activators[a].done == r.members.Keys - rest
        invariant old(Working(w, a, r)) ==> Working(w, a, r)
        decreases |rest|
      {
        var s :| s in rest;
        CopyProgress(this, a, r, s);
        ok := LateStep(a, Copy(s), r);
        if !ok { return; }
        rest := rest - {s};
      }
      ReceiptProgress(this, a, r);
      ok := LateStep(a, WriteReceipt, r);
    }

    /** The receipt was there: compare every component again. */
    method RehashComponents(a: nat, r: Request) returns (ok: bool)
      requires Running(a, r) && w.activators[a].phase.Rehashing? && w.activators[a].done == {}
      modifies this
      ensures Running(a, r) && OnTheWay(a, old(trace), trace)
      ensures ok ==> w.activators[a].phase.Clearing?
      ensures old(Working(w, a, r)) ==> ok && Working(w, a, r)
    {
      hide Initial, After, LocalStep, ActivationStep, Working, Achieved, Opened;
      var rest := r.members.Keys;
      while rest != {}
        invariant rest <= r.members.Keys && Running(a, r) && OnTheWay(a, old(trace), trace)
        invariant w.activators[a].phase.Rehashing? && w.activators[a].done == r.members.Keys - rest
        invariant old(Working(w, a, r)) ==> Working(w, a, r)
        decreases |rest|
      {
        var s :| s in rest;
        CopyProgress(this, a, r, s);
        ok := LateStep(a, Rehash(s), r);
        if !ok { return; }
        rest := rest - {s};
      }
      ReceiptProgress(this, a, r);
      ok := LateStep(a, Adopt, r);
    }

    /** From the retired sources to the open gate, along whichever branch the destination needs. */
    method OpenSuccessor(a: nat, r: Request) returns (ok: bool)
      requires Running(a, r) && w.activators[a].phase.Retiring? && w.activators[a].done == r.members.Keys
      modifies this
      ensures Running(a, r) && OwnEvents(a, old(trace), trace) && (ok <==> Finished(a, old(trace), trace))
      ensures ok ==> Delivered(w.disk, r)
      ensures old(Working(w, a, r)) ==> ok && Delivered(w.disk, r)
    {
      hide Initial, After, LocalStep, ActivationStep, Working, Inv, Delivered, Retired, Achieved, Opened, Finished;
      InvAlways(start, trace);
      if Working(w, a, r) { OpenWorks(w, a, r); }
      OpenPhase(w, a);
      ghost var older := trace;
      NotFinished(a, older, older);
      ok := LateStep(a, Open, r);
      NotFinished(a, older, trace);
      if !ok { return; }
      if w.activators[a].phase.Settling? {
        ghost var newer := trace;
        ok := SettleDestination(a, r);
        Finishes(a, older, newer, trace);
        return;
      }
      ok := FillDestination(a, r);
      NotFinished(a, older, trace);
      if !ok { return; }
      ghost var newer := trace;
      ok := DropTheGate(a, r);
      Finishes(a, older, newer, trace);
    }

    /** Everything under the gate: the copies and the receipt, or the comparison with an earlier one. */
    method FillDestination(a: nat, r: Request) returns (ok: bool)
      requires Running(a, r) && w.activators[a].done == {}
      requires w.activators[a].phase.Gating? || w.activators[a].phase.Copying? || w.activators[a].phase.Rehashing?
      modifies this
      ensures Running(a, r) && OnTheWay(a, old(trace), trace)
      ensures ok ==> w.activators[a].phase.Clearing?
      ensures old(Working(w, a, r)) ==> ok && Working(w, a, r)
    {
      hide Initial, After, LocalStep, ActivationStep, Working, Achieved, Opened;
      if w.activators[a].phase.Gating? {
        ok := RaiseTheGate(a, r);
        if !ok { return; }
      }
      if w.activators[a].phase.Copying? {
        ok := CopyComponents(a, r);
        if !ok { return; }
        FinishPhases(w, a, r);
        ok := LateStep(a, Commit, r);
      } else {
        ok := RehashComponents(a, r);
      }
    }

    method SettleDestination(a: nat, r: Request) returns (ok: bool)
      requires Running(a, r) && w.activators[a].phase.Settling? && r.dest !in w.disk.gates
      modifies this
      ensures Running(a, r) && OwnEvents(a, old(trace), trace) && (ok <==> Finished(a, old(trace), trace))
      ensures ok ==> Delivered(w.disk, r)
      ensures old(Working(w, a, r)) ==> ok && Delivered(w.disk, r)
    {
      hide Initial, After, LocalStep, ActivationStep, Working, Inv, Retired, Delivered, Achieved, Opened, Finished;
      InvAlways(start, trace);
      RetiredBefore(w, a);
      SettleEnds(w, a, r);
      ghost var older := trace;
      ok := LateStep(a, Settle, r);
      if ok { OpenedDelivers(w.disk, r); } else { NotFinished(a, older, trace); }
    }

    method RaiseTheGate(a: nat, r: Request) returns (ok: bool)
      requires Running(a, r) && w.activators[a].phase.Gating? && w.activators[a].done == {}
      modifies this
      ensures Running(a, r) && OnTheWay(a, old(trace), trace)
      ensures ok ==> w.activators[a].phase.Copying? && w.activators[a].done == {}
      ensures old(Working(w, a, r)) ==> ok && Working(w, a, r)
    {
      hide Initial, After, LocalStep, ActivationStep, Working;
      FinishPhases(w, a, r);
      ok := LateStep(a, RaiseGate, r);
      if !ok { return; }
      FinishPhases(w, a, r);
      ok := LateStep(a, Announce, r);
    }

    method DropTheGate(a: nat, r: Request) returns (ok: bool)
      requires Running(a, r) && w.activators[a].phase.Clearing?
      modifies this
      ensures Running(a, r) && OwnEvents(a, old(trace), trace) && (ok <==> Finished(a, old(trace), trace))
      ensures ok ==> Delivered(w.disk, r)
      ensures old(Working(w, a, r)) ==> ok && Delivered(w.disk, r)
    {
      hide Initial, After, LocalStep, ActivationStep, Working, Inv, Retired, Delivered, Achieved, Opened, Finished;
      FinishPhases(w, a, r);
      ghost var older := trace;
      ok := LateStep(a, ClearPending, r);
      NotFinished(a, older, trace);
      if !ok { return; }
      FinishPhases(w, a, r);
      InvAlways(start, trace);
      RetiredBefore(w, a);
      GateEnds(w, a, r);
      ghost var newer := trace;
      ok := LateStep(a, DropGate, r);
      if ok { OpenedDelivers(w.disk, r); } else { NotFinished(a, newer, trace); }
      Finishes(a, older, newer, trace);
    }

    /** Every way out gives the leases back one by one and ends the process: their records keep the
        fence and lose the holder, and nothing else on the disk changes. */
    method GiveBackLeases(a: nat, r: Request)
      requires Running(a, r)
      modifies this
      ensures Valid() && OnTheWay(a, old(trace), trace) && a !in w.activators
      ensures w.disk == old(w.disk).(records := GivenBack(old(w.disk.records), old(w.activators[a].leases)))
      ensures w.activators == old(w.activators) - {a}
    {
      hide Initial, After, LocalStep, ActivationStep, Inv, Releasing, GivenBack, Achieved, OnTheWay;
      ghost var older := trace;
      StillOnTheWay(a, older, older, Act(a, Leave));
      InvAlways(start, trace);
      ghost var before := w;
      LeaveEnds(w, a);
      var left := Step(a, Leave);
      ghost var gone: map<Db, nat> := map[];
      ReleaseStart(before, w, a);
      while w.activators[a].leases != map[]
        invariant Valid() && a in w.activators && OnTheWay(a, older, trace)
        invariant Releasing(before, w, a, gone)
        decreases |w.activators[a].leases|
      {
        var s :| s in w.activators[a].leases;
        ReleaseNext(before, w, a, gone, s);
        StillOnTheWay(a, older, trace, Act(a, Release(s)));
        var released := Step(a, Release(s));
        gone := gone[s := before.activators[a].leases[s]];
      }
      ReleaseDone(before, w, a, gone);
      StillOnTheWay(a, older, trace, Stop(a));
      Extended(start, trace, w, Stop(a));
      trace := trace + [Stop(a)];
      w := w.(activators := w.activators - {a});
    }

    /** An activation or its retry. Whatever happens, it leaves no lock behind, and its steps are
        steps of the protocol. It reports success exactly if it took the step that ends a protocol
        run, and then the successor is complete, committed and open and every source retired for it.
        It does succeed whenever its sources are untouched and its destination is free or its own.
        A destination that another request has reserved, or whose reservation says committed while
        its receipt is gone, is refused, and then the disk is as it was. */
    method Activate(a: nat, r: Request) returns (ok: bool)
      requires Valid() && a !in w.activators
      modifies this
      ensures Valid() && OwnEvents(a, old(trace), trace) && (ok <==> Finished(a, old(trace), trace))
      ensures w.activators == old(w.activators) && w.writers == old(w.writers)
      ensures ok ==> Delivered(w.disk, r)
      ensures old(Admissible(w, a, r)) ==> ok
      ensures old(Taken(w.disk, r)) ==> !ok && w.disk == old(w.disk)
    {
      hide Initial, After, LocalStep, ActivationStep, Working, SourcesFine, DestFree, WellNamed, Retired, Delivered, Achieved,
           Taken, Finished;
      ghost var older := trace;
      NotFinished(a, older, older);
      if r.members == map[] || !WellNamed(r) {
        return false;
      }
      Begun(w, a, r);
      Extended(start, trace, w, Begin(a, r));
      trace := trace + [Begin(a, r)];
      w := w.(activators := w.activators[a := Activator(r, Preparing, map[], {})]);
      ghost var newer := trace;
      PreflightWorks(w, a, r);
      Unachieved(w.disk, r);
      ok := Proceed(a, r);
      Finishes(a, older, newer, trace);
      ghost var done, last := w, trace;
      NothingBack(w.disk.records);
      GiveBackLeases(a, r);
      Unchanged(done, w, r);
      FinishedLeaving(a, older, last, trace);
      OthersUntouched(start, old(trace), trace, a);
      assert w.activators - {a} == w.activators && old(w.activators) - {a} == old(w.activators);
    }

    /** Everything between the beginning and the end of its process. */
    method Proceed(a: nat, r: Request) returns (ok: bool)
      requires Running(a, r) && w.activators[a] == Activator(r, Preparing, map[], {}) && r.members != map[]
      modifies this
      ensures Running(a, r) && OwnEvents(a, old(trace), trace) && (ok <==> Finished(a, old(trace), trace))
      ensures ok ==> Delivered(w.disk, r)
      ensures old(Hopeful(a, r)) ==> ok
      ensures old(Taken(w.disk, r)) ==> !ok && w == old(w)
    {
      hide Initial, After, LocalStep, ActivationStep, Working, SourcesFine, DestFree, WellNamed, Retired, Delivered, Achieved,
           Taken, Finished;
      ghost var older := trace;
      PreflightWorks(w, a, r);
      ok := EarlyStep(a, Preflight, r);
      if ok { ok := LockSources(a, r); }
      if ok { ok := VerifySources(a, r); }
      if ok { ok := ReserveDestination(a, r); }
      if ok { ok := RetireSources(a, r); }
      NotFinished(a, older, trace);
      if ok {
        ghost var newer := trace;
        ok := OpenSuccessor(a, r);
        Finishes(a, older, newer, trace);
      }
    }
  }

  /** Another request has reserved the destination, or it was committed and its receipt is gone. */
  predicate Taken(d: Disk, r: Request)
  {
    && r.dest in d.reservations
    && (d.reservations[r.dest].request != r
        || (d.reservations[r.dest].activated && (r.dest !in d.receipts || d.receipts[r.dest] != r)))
  }

  lemma NothingBack(records: map<Db, Record>)
    ensures GivenBack(records, map[]) == records
  {
  }

  lemma Unachieved(d: Disk, r: Request)
    ensures Achieved(d, Activator(r, Preparing, map[], {}))
  {
  }

  lemma StepAchieves(w: World, a: nat, action: Action)
    requires ActivationStep(w, a, action).Some? && Achieved(w.disk, w.activators[a])
    ensures var v := ActivationStep(w, a, action).value;
            && a in v.activators && v.activators[a].request == w.activators[a].request && Achieved(v.disk, v.activators[a])
            && (Finishing(action) ==> Opened(v.disk, w.activators[a].request))
  {
    hide LocalStep, Achieved, Opened, Noted;
    ActionAchieves(w, a, action);
    RequestKept(w, a, action);
  }

  /** The early steps keep what makes an activation succeed. */
  lemma EarlyProgress(w: World, a: nat, action: Action, r: Request)
    requires Inv(w) && ActivationStep(w, a, action).Some? && w.activators[a].request == r
    requires !PastReserve(w.activators[a].phase) && !action.Reserve?
    ensures ActivationStep(w, a, action).value.activators[a].request == r
    ensures SourcesFine(w, a, r) ==> SourcesFine(ActivationStep(w, a, action).value, a, r)
    ensures DestFree(w.disk, r) ==> DestFree(ActivationStep(w, a, action).value.disk, r)
  {
    hide LocalStep, Noted;
    RequestKept(w, a, action);
    assert LocalOk(w.disk, a, w.activators[a]) by { hide LocalOk; }
    hide Inv, SourcesFine, DestFree, LocalOk;
    if SourcesFine(w, a, r) { FineKept(w, a, action, r); }
    if DestFree(w.disk, r) { FreeKept(w, a, action, r); }
  }

  lemma AcquireWorks(w: World, a: nat, r: Request, s: Db)
    requires a in w.activators && w.activators[a].request == r && w.activators[a].phase.Locking?
    requires s in r.members && s !in w.activators[a].leases
    ensures SourcesFine(w, a, r) ==> LocalStep(w, a, Acquire(s)).Some?
    ensures var v := ActivationStep(w, a, Acquire(s));
            v.Some? ==> v.value.activators[a] == w.activators[a].(phase := Locked(s))
  {
    if SourcesFine(w, a, r) {
      assert SourceFine(w, a, r, s);
    }
  }

  lemma FenceWorks(w: World, a: nat, r: Request)
    requires a in w.activators && w.activators[a].request == r && w.activators[a].phase.Locked?
    requires w.activators[a].phase.source in r.members
    ensures SourcesFine(w, a, r) ==> LocalStep(w, a, ReadFence).Some?
    ensures var v, s := ActivationStep(w, a, ReadFence), w.activators[a].phase.source;
            v.Some? ==> v.value.activators[a] == w.activators[a].(phase := Fenced(s, FenceOf(w.disk, s)))
  {
    if SourcesFine(w, a, r) {
      assert SourceFine(w, a, r, w.activators[a].phase.source);
    }
  }

  lemma LeaseWorks(w: World, a: nat, r: Request)
    requires a in w.activators && w.activators[a].request == r && w.activators[a].phase.Fenced?
    ensures LocalStep(w, a, PublishLease).Some?
    ensures var y, x := ActivationStep(w, a, PublishLease).value.activators[a], w.activators[a];
            && y.leases.Keys == x.leases.Keys + {x.phase.source} && y.done == x.done
            && y.phase == if y.leases.Keys == r.members.Keys then Verifying else Locking
  {
  }

  lemma VerifyWorks(host: Host, a: nat, r: Request, s: Db)
    requires host.Running(a, r) && host.w.activators[a].phase.Verifying? && s in r.members
    ensures SourcesFine(host.w, a, r) ==> LocalStep(host.w, a, Verify(s)).Some?
    ensures var v, x := ActivationStep(host.w, a, Verify(s)), host.w.activators[a];
            v.Some? ==> v.value.activators[a].phase.Verifying? && v.value.activators[a].done == x.done + {s}
  {
    hide Initial, After, LocalStep;
    InvAlways(host.start, host.trace);
    hide *;
    VerifyPasses(host.w, a, host.w.activators[a], r, s);
  }

  lemma VerifyPasses(w: World, a: nat, x: Activator, r: Request, s: Db)
    requires a in w.activators && w.activators[a] == x && x.request == r && x.phase.Verifying? && s in r.members && Inv(w)
    ensures SourcesFine(w, a, r) ==> LocalStep(w, a, Verify(s)).Some?
    ensures var v := ActivationStep(w, a, Verify(s));
            v.Some? ==> v.value.activators[a].phase.Verifying? && v.value.activators[a].done == x.done + {s}
  {
    assert LocalOk(w.disk, a, x) by { hide LocalOk; }
    hide Inv, LocalOk;
    if SourcesFine(w, a, r) {
      assert SourceFine(w, a, r, s);
      FineLeases(w, a, r);
    }
  }

  lemma JudgeWorks(w: World, a: nat, r: Request)
    requires a in w.activators && w.activators[a].request == r && w.activators[a].phase.Verifying?
    requires w.activators[a].done == r.members.Keys
    ensures DestFree(w.disk, r) ==> LocalStep(w, a, Judge).Some?
    ensures var v := ActivationStep(w, a, Judge);
            v.Some? ==> v.value.activators[a] == w.activators[a].(phase := Reserving, done := {})
  {
    hide DestReady;
  }

  lemma Reserved(w: World, a: nat, r: Request)
    requires a in w.activators && w.activators[a].request == r && w.activators[a].phase.Reserving?
    ensures var v := ActivationStep(w, a, Reserve);
            && (v.Some? <==> LocalStep(w, a, Reserve).Some?)
            && (v.Some? ==> v.value.activators[a] == w.activators[a].(phase := Retiring, done := {}))
            && (WellNamed(r) && SourcesFine(w, a, r) && DestFree(w.disk, r) ==> v.Some? && Working(v.value, a, r))
  {
    if WellNamed(r) && SourcesFine(w, a, r) && DestFree(w.disk, r) {
      ReserveWorks(w, a, r);
      FineKept(w, a, Reserve, r);
      hide SourcesFine, DestFree, WellNamed;
      var v := ActivationStep(w, a, Reserve).value;
      assert DestReady(v.disk, r);
      assert ComponentsRight(v.disk, v.activators[a]);
      hide Initializing, ComponentsExist, AllRight, PartlyRight;
    }
  }

  lemma RetireWorks(w: World, a: nat, r: Request, s: Db)
    requires a in w.activators && w.activators[a].request == r && w.activators[a].phase.Retiring? && s in r.members
    ensures Working(w, a, r) ==> LocalStep(w, a, Retire(s)).Some?
    ensures var v, x := ActivationStep(w, a, Retire(s)), w.activators[a];
            v.Some? ==> v.value.activators[a] == x.(done := x.done + {s})
  {
    hide AtWork, WellNamed;
    if Working(w, a, r) {
      assert SourceFine(w, a, r, s);
    }
  }

  lemma CopyProgress(host: Host, a: nat, r: Request, s: Db)
    requires host.Running(a, r) && s in r.members
    requires host.w.activators[a].phase.Copying? || host.w.activators[a].phase.Rehashing?
    ensures var w, x := host.w, host.w.activators[a];
            var action := if x.phase.Copying? then Copy(s) else Rehash(s);
            && (Working(w, a, r) ==> LocalStep(w, a, action).Some?)
            && var v := ActivationStep(w, a, action);
               v.Some? ==> v.value.activators[a] == x.(done := x.done + {s})
  {
    hide Initial, After, Inv, Working, LeasesOk;
    InvAlways(host.start, host.trace);
    if Working(host.w, a, r) {
      CopyWorks(host.w, a, r, s);
    }
  }

  lemma ReceiptProgress(host: Host, a: nat, r: Request)
    requires host.Running(a, r) && host.w.activators[a].done == r.members.Keys
    requires host.w.activators[a].phase.Copying? || host.w.activators[a].phase.Rehashing?
    ensures var w, x := host.w, host.w.activators[a];
            var action := if x.phase.Copying? then WriteReceipt else Adopt;
            && (Working(w, a, r) ==> LocalStep(w, a, action).Some?)
            && var v := ActivationStep(w, a, action);
               v.Some? ==> v.value.activators[a].phase == if x.phase.Copying? then Committing else Clearing
  {
    hide Initial, After, Inv, Working, LeasesOk;
    InvAlways(host.start, host.trace);
    if Working(host.w, a, r) {
      assert r.members != map[] by { HasMembers(host.w, a); }
      var s :| s in r.members;
      CopyWorks(host.w, a, r, s);
    }
  }

  lemma HasMembers(w: World, a: nat)
    requires Inv(w) && a in w.activators
    ensures w.activators[a].request.members != map[]
  {
    assert LocalOk(w.disk, a, w.activators[a]);
  }

  lemma OpenPhase(w: World, a: nat)
    requires a in w.activators && w.activators[a].phase.Retiring?
    ensures LocalStep(w, a, Open) == OpenDest(w.disk, a, w.activators[a])
    ensures var v := ActivationStep(w, a, Open);
            v.Some? ==>
              var y := v.value.activators[a];
              && y.done == {} && (y.phase.Gating? || y.phase.Copying? || y.phase.Rehashing? || y.phase.Settling?)
              && (y.phase.Settling? ==> w.activators[a].request.dest !in v.value.disk.gates)
  {
    hide LeasesOk, ComponentsExist, Initializing;
  }

  lemma FinishPhases(w: World, a: nat, r: Request)
    requires a in w.activators && w.activators[a].request == r
    ensures w.activators[a].phase.Gating? ==>
      && (Working(w, a, r) ==> LocalStep(w, a, RaiseGate).Some?)
      && var v := ActivationStep(w, a, RaiseGate);
         v.Some? ==> v.value.activators[a] == w.activators[a].(phase := Announcing)
    ensures w.activators[a].phase.Announcing? ==>
      && (Working(w, a, r) ==> LocalStep(w, a, Announce).Some?)
      && var v := ActivationStep(w, a, Announce);
         v.Some? ==> v.value.activators[a] == w.activators[a].(phase := Copying)
    ensures w.activators[a].phase.Committing? ==>
      && LocalStep(w, a, Commit).Some?
      && ActivationStep(w, a, Commit).value.activators[a] == w.activators[a].(phase := Clearing)
    ensures w.activators[a].phase.Clearing? ==>
      && LocalStep(w, a, ClearPending).Some?
      && ActivationStep(w, a, ClearPending).value.activators[a] == w.activators[a].(phase := Ungating)
  {
    hide Working;
    if Working(w, a, r) {
      FillWorks(w, a, r);
    }
  }

  lemma RetiredBefore(w: World, a: nat)
    requires Inv(w) && a in w.activators && PastRetire(w.activators[a].phase)
    ensures Retired(w.disk, w.activators[a].request)
  {
    assert LocalOk(w.disk, a, w.activators[a]);
  }

  lemma SettleEnds(w: World, a: nat, r: Request)
    requires a in w.activators && w.activators[a].request == r && w.activators[a].phase.Settling?
    requires Retired(w.disk, r) && r.dest !in w.disk.gates
    ensures Working(w, a, r) ==> LocalStep(w, a, Settle).Some? && Delivered(w.disk, r)
    ensures var v := ActivationStep(w, a, Settle); v.Some? ==> v.value.disk == w.disk
  {
    hide Retired;
    if Working(w, a, r) {
      SettleWorks(w, a, r);
      assert DestReady(w.disk, r) && r.dest in w.disk.receipts;
      hide SourcesFine, WellNamed, DestRight, AllRight, PartlyRight, Initializing, ComponentsExist;
    }
  }

  lemma GateEnds(w: World, a: nat, r: Request)
    requires a in w.activators && w.activators[a].request == r && w.activators[a].phase.Ungating?
    requires Retired(w.disk, r)
    ensures Working(w, a, r) ==> LocalStep(w, a, DropGate).Some?
    ensures var v := ActivationStep(w, a, DropGate);
            v.Some? ==>
              && Retired(v.value.disk, r) && r.dest !in v.value.disk.gates
              && (Working(w, a, r) ==> Delivered(v.value.disk, r))
  {
    hide SourcesFine, WellNamed, AllRight, PartlyRight, Initializing, ComponentsExist, ComponentsRight;
    if Working(w, a, r) {
      FillWorks(w, a, r);
      assert DestReady(w.disk, r) && r.dest in w.disk.receipts;
      WorkingKept(w, a, DropGate, r);
    }
  }

  lemma LeaveEnds(w: World, a: nat)
    requires a in w.activators
    ensures ActivationStep(w, a, Leave) == Some(w.(activators := w.activators[a := w.activators[a].(phase := Leaving)]))
    ensures LocalStep(w, a, Leave).Some?
  {
  }

  /** The leases in `gone` have been given back, the others are still held. */
  ghost predicate Releasing(before: World, w: World, a: nat, gone: map<Db, nat>)
    requires a in before.activators
  {
    var leases := before.activators[a].leases;
    && a in w.activators && w.activators[a].phase.Leaving? && w.activators == before.activators[a := w.activators[a]]
    && gone.Keys <= leases.Keys && (forall s :: s in gone ==> gone[s] == leases[s])
    && w.activators[a].leases == leases - gone.Keys
    && w.disk == before.disk.(records := GivenBack(before.disk.records, gone))
    && (forall s :: s in leases ==> s in before.disk.records && before.disk.records[s] == Record(leases[s], Some(a)))
  }

  lemma ReleaseStart(before: World, w: World, a: nat)
    requires Inv(before) && ActivationStep(before, a, Leave) == Some(w)
    ensures a in before.activators && Releasing(before, w, a, map[])
  {
    hide Inv;
    LeasesRecorded(before, a);
    var leases := before.activators[a].leases;
    var none: map<Db, nat> := map[];
    assert leases - none.Keys == leases;
    assert GivenBack(before.disk.records, map[]) == before.disk.records;
  }

  lemma ReleaseNext(before: World, w: World, a: nat, gone: map<Db, nat>, s: Db)
    requires a in before.activators && Releasing(before, w, a, gone) && s in w.activators[a].leases
    ensures LocalStep(w, a, Release(s)).Some? && ActivationStep(w, a, Release(s)).Some? && s in before.activators[a].leases
    ensures var v := ActivationStep(w, a, Release(s)).value;
            && Releasing(before, v, a, gone[s := before.activators[a].leases[s]])
            && |v.activators[a].leases| < |w.activators[a].leases|
  {
    hide GivenBack, ActivationStep, LocalStep;
    StillRecorded(before, w, a, gone, s);
    hide Releasing;
    ReleaseEnds(w, a, s);
    OneLess(w.activators[a].leases, s);
    ReleasingMore(before, w, ActivationStep(w, a, Release(s)).value, a, gone, s);
  }

  lemma StillRecorded(before: World, w: World, a: nat, gone: map<Db, nat>, s: Db)
    requires a in before.activators && Releasing(before, w, a, gone) && s in w.activators[a].leases
    ensures s in before.activators[a].leases && w.activators[a].phase.Leaving?
    ensures s in w.disk.records && w.disk.records[s] == Record(w.activators[a].leases[s], Some(a))
  {
    hide GivenBack;
    GivenOne(before.disk.records, before.activators[a].leases, gone, s);
  }

  lemma UpdatedTwice(m: map<nat, Activator>, a: nat, x: Activator, y: Activator)
    ensures m[a := x][a := y] == m[a := y]
  {
  }

  lemma ReleasingMore(before: World, w: World, v: World, a: nat, gone: map<Db, nat>, s: Db)
    requires a in before.activators && Releasing(before, w, a, gone) && s in w.activators[a].leases
    requires var x := w.activators[a];
             && v.disk == w.disk.(records := w.disk.records[s := Record(x.leases[s], None)])
             && v.activators == w.activators[a := x.(leases := x.leases - {s})]
    ensures s in before.activators[a].leases && Releasing(before, v, a, gone[s := before.activators[a].leases[s]])
  {
    hide GivenBack;
    var leases := before.activators[a].leases;
    GivenOne(before.disk.records, leases, gone, s);
    LeftOne(leases, gone, s);
    UpdatedTwice(before.activators, a, w.activators[a], v.activators[a]);
  }

  lemma GivenOne(records: map<Db, Record>, leases: map<Db, nat>, gone: map<Db, nat>, s: Db)
    requires s in leases && s !in gone && s in records
    ensures GivenBack(records, gone[s := leases[s]]) == GivenBack(records, gone)[s := Record(leases[s], None)]
    ensures s in GivenBack(records, gone) && GivenBack(records, gone)[s] == records[s]
  {
  }

  lemma LeftOne(leases: map<Db, nat>, gone: map<Db, nat>, s: Db)
    requires s in leases - gone.Keys
    ensures leases - gone[s := leases[s]].Keys == (leases - gone.Keys) - {s}
  {
  }

  lemma OneLess(m: map<Db, nat>, s: Db)
    requires s in m
    ensures |m - {s}| < |m|
  {
    assert (m - {s}).Keys == m.Keys - {s};
  }

  /** One release rewrites one record. */
  lemma ReleaseEnds(w: World, a: nat, s: Db)
    requires a in w.activators && w.activators[a].phase.Leaving? && s in w.activators[a].leases
    requires s in w.disk.records && w.disk.records[s] == Record(w.activators[a].leases[s], Some(a))
    ensures LocalStep(w, a, Release(s)).Some?
    ensures ActivationStep(w, a, Release(s)).Some?
    ensures var v, x := ActivationStep(w, a, Release(s)).value, w.activators[a];
            && v.disk == w.disk.(records := w.disk.records[s := Record(x.leases[s], None)])
            && v.activators == w.activators[a := x.(leases := x.leases - {s})]
  {
  }

  lemma ReleaseDone(before: World, w: World, a: nat, gone: map<Db, nat>)
    requires a in before.activators && Releasing(before, w, a, gone) && w.activators[a].leases == map[]
    ensures w.disk == before.disk.(records := GivenBack(before.disk.records, before.activators[a].leases))
    ensures w.activators - {a} == before.activators - {a}
  {
    AllGone(before.activators[a].leases, gone);
    hide GivenBack;
  }

  lemma Begun(w: World, a: nat, r: Request)
    requires a !in w.activators && r.members != map[] && WellNamed(r)
    ensures var v := w.(activators := w.activators[a := Activator(r, Preparing, map[], {})]);
            && Next(w, Begin(a, r)) == Some(v)
            && (SourcesFine(w, a, r) ==> SourcesFine(v, a, r))
  {
    var v := w.(activators := w.activators[a := Activator(r, Preparing, map[], {})]);
    if SourcesFine(w, a, r) {
      forall s | s in r.members ensures SourceFine(v, a, r, s) {
        assert SourceFine(w, a, r, s);
      }
    }
  }

  lemma PreflightWorks(w: World, a: nat, r: Request)
    requires a in w.activators && w.activators[a] == Activator(r, Preparing, map[], {})
    ensures DestFree(w.disk, r) ==> LocalStep(w, a, Preflight).Some?
    ensures Taken(w.disk, r) ==> LocalStep(w, a, Preflight).None?
    ensures var v := ActivationStep(w, a, Preflight);
            v.Some? ==> v.value.activators[a] == Activator(r, Locking, map[], {})
  {
    hide AllRight, PartlyRight, ComponentsExist;
  }

  /** Only records changed, so what was delivered stays delivered. */
  lemma Unchanged(w: World, v: World, r: Request)
    requires v.disk == w.disk.(records := v.disk.records)
    ensures Retired(w.disk, r) ==> Retired(v.disk, r)
    ensures Delivered(w.disk, r) ==> Delivered(v.disk, r)
  {
  }

  /** Its own events leave every other process as it was. */
  lemma {:induction false} OthersUntouched(start: World, older: seq<Event>, newer: seq<Event>, a: nat)
    requires OwnEvents(a, older, newer) && After(start, older).Some? && After(start, newer).Some?
    ensures var w, v := After(start, older).value, After(start, newer).value;
            v.activators - {a} == w.activators - {a} && v.writers == w.writers
    decreases |newer|
  {
    hide Next;
    if |newer| == |older| {
      assert newer == older;
    } else {
      var k := |newer| - 1;
      AfterLastStep(start, newer);
      assert IsOwn(a, newer[k]);
      OthersUntouched(start, older, newer[..k], a);
      OwnStep(After(start, newer[..k]).value, newer[k], a);
    }
  }

  lemma OwnStep(w: World, e: Event, a: nat)
    requires IsOwn(a, e) && Next(w, e).Some?
    ensures var v := Next(w, e).value; v.activators - {a} == w.activators - {a} && v.writers == w.writers
  {
    hide LocalStep;
    var v := Next(w, e).value;
    assert forall b :: b != a ==> (b in v.activators <==> b in w.activators);
    assert forall b :: b != a && b in v.activators ==> v.activators[b] == w.activators[b];
  }

  /** Whenever nothing is running, a request that was ever reserved can be completed by running it
      again, as long as its sources are untouched, its reservation was not lost and, where that says
      committed, the receipt is there. */
  lemma RetryIsAdmissible(start: World, run: seq<Event>, a: nat, r: Request)
    requires Initial(start) && After(start, run).Some? && OrderlyRun(start, run)
    requires var w := After(start, run).value;
             && w.activators == map[] && w.writers == map[]
             && r in w.history.reserved && r.dest !in w.history.lostReservations && Backed(w.disk, r.dest)
             && forall s :: s in r.members ==>
                  && s.dir !in w.disk.gates && s.dir != r.dest && (s in w.disk.retired ==> w.disk.retired[s] == r)
                  && s in w.disk.content && w.disk.content[s] == r.members[s].content
    ensures Admissible(After(start, run).value, a, r)
  {
    AlwaysResumable(start, run, r);
    ReservedAlways(start, run);
    hide After, Initial, WellNamed, OrderlyRun, DestReady;
    var w := After(start, run).value;
    assert r.dest in w.disk.reservations by { ReadyReserved(w.disk, r); }
  }

  lemma ReadyReserved(d: Disk, r: Request)
    requires DestReady(d, r)
    ensures r.dest in d.reservations
  {
  }
}
