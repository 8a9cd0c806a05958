/** No write is lost: when the gate falls, the successor holds what every source last held. */
module HandoffContents {
  import opened HandoffProtocol
  import opened HandoffSafety
  import opened HandoffLaws

  // ---------------------------------------------------------------- orderly runs

  /** The database is one of the components of the request. */
  predicate Names(r: Request, db: Db) { exists s :: s in r.members && Component(r, s) == db }

  /** A writer has already looked for the gate at one of the components. */
  predicate Exposed(writers: map<nat, Writer>, r: Request)
  {
    exists c :: c in writers && Names(r, writers[c].db)
  }

  /** From the opened destination to the removed gate. */
  predicate Within(p: Phase)
  {
    p.Gating? || p.Announcing? || p.Copying? || p.Committing? || p.Clearing? || p.Ungating?
  }

  /** Every component that is still to be compared is one that the other request would supply. */
  predicate Completable(x: Activator, q: Request)
  {
    forall s :: s in x.request.members && s !in x.done ==> Names(q, Component(x.request, s))
  }

  /** The destination is about to be made, or taken over before anything is in it. */
  predicate Fresh(d: Disk, t: Dir) { t !in d.dirs || (t !in d.receipts && t !in d.pending) }

  /** Another activation is at work in the destination, or could complete its comparison there. */
  predicate Contested(activators: map<nat, Activator>, a: nat)
    requires a in activators
  {
    var r := activators[a].request;
    exists b :: b in activators && b != a && activators[b].request.dest == r.dest
      && (Within(activators[b].phase) || (activators[b].phase.Rehashing? && Completable(activators[b], r)))
  }

  /** Two things that can be looked at before a step: nobody has already knocked at a component
      when its gate goes up, and nobody is still at work in a destination that is opened afresh. */
  ghost predicate Orderly(w: World, e: Event)
  {
    e.Act? && e.a in w.activators ==>
      var r := w.activators[e.a].request;
      && (e.action.RaiseGate? ==> !Exposed(w.writers, r))
      && (e.action.Open? && Fresh(w.disk, r.dest) ==> !Contested(w.activators, e.a))
  }

  ghost predicate OrderlyRun(start: World, run: seq<Event>)
    decreases |run|
  {
    run == [] ||
    (var before := run[..|run| - 1];
     OrderlyRun(start, before) && (After(start, before).Some? ==> Orderly(After(start, before).value, run[|run| - 1])))
  }

  // ---------------------------------------------------------------- the invariant

  /** The sources whose components have been put in place or found right. */
  function Compared(x: Activator): set<Db>
  {
    if x.phase.Announcing? || x.phase.Copying? || x.phase.Rehashing? then x.done
    else if x.phase.Committing? || x.phase.Clearing? || x.phase.Ungating? then x.request.members.Keys
    else {}
  }

  predicate ComponentRight(d: Disk, r: Request, s: Db)
  {
    && s in r.members && Component(r, s) in d.content
    && d.content[Component(r, s)] == r.members[s].content
  }

  ghost predicate ComponentsRight(d: Disk, x: Activator)
  {
    forall s :: s in Compared(x) ==> ComponentRight(d, x.request, s)
  }

  predicate Vacant(d: Disk, t: Dir)
  {
    t !in d.pending && t !in d.receipts && forall s :: s in d.content ==> s.dir != t
  }

  /** What an activation finds in the destination that it has opened, while it exists. */
  ghost predicate Placed(d: Disk, writers: map<nat, Writer>, x: Activator)
  {
    var r, t, p := x.request, x.request.dest, x.phase;
    Within(p) && t in d.dirs ==>
      && (if p.Gating? then Vacant(d, t) && x.done == {} else t in d.gates && !Exposed(writers, r))
      && (t in d.pending ==> d.pending[t] == r && !p.Ungating?) && (t in d.receipts ==> d.receipts[t] == r)
      && ComponentsRight(d, x)
  }

  /** An activation that compares an earlier copy of its own. */
  ghost predicate Sound(d: Disk, writers: map<nat, Writer>, x: Activator)
  {
    var r, t := x.request, x.request.dest;
    t in d.receipts && d.receipts[t] == r && t in d.gates && !Exposed(writers, r) && ComponentsRight(d, x)
  }

  /** One whose copy was lost: this component of it never comes back. */
  ghost predicate Stale(d: Disk, activators: map<nat, Activator>, x: Activator, s: Db)
  {
    var r, t := x.request, x.request.dest;
    && s in r.members && s !in x.done && Component(r, s) !in d.content
    && (t in d.pending ==> !Names(d.pending[t], Component(r, s)))
    && (t in d.receipts ==> !Names(d.receipts[t], Component(r, s)))
    && (forall b :: b in activators && Within(activators[b].phase) && activators[b].request.dest == t ==>
          !Names(activators[b].request, Component(r, s)))
  }

  ghost predicate Checked(d: Disk, writers: map<nat, Writer>, activators: map<nat, Activator>, x: Activator)
  {
    x.phase.Rehashing? && x.request.dest in d.dirs ==>
      Sound(d, writers, x) || exists s :: Stale(d, activators, x, s)
  }

  /** Every document lies in its directory, under a gate that no writer has passed. */
  ghost predicate Papers(d: Disk, writers: map<nat, Writer>)
  {
    && (forall s :: s in d.content ==> s.dir in d.dirs) && d.gates <= d.dirs && d.receipts.Keys <= d.dirs
    && (forall t :: t in d.pending ==> t in d.gates && d.pending[t].dest == t && !Exposed(writers, d.pending[t]))
    && (forall t :: t in d.receipts ==> d.receipts[t].dest == t && (t in d.gates ==> !Exposed(writers, d.receipts[t])))
    && (forall t :: t in d.receipts && t in d.pending ==> d.receipts[t] == d.pending[t])
  }

  /** No two activations are at work in one destination. */
  ghost predicate Apart(activators: map<nat, Activator>)
  {
    forall a, b :: a in activators && b in activators && a != b && Within(activators[a].phase) && Within(activators[b].phase) ==>
      activators[a].request.dest != activators[b].request.dest
  }

  predicate Anchored(d: Disk, s: Db) { s in d.content && s.dir !in d.gates }

  function Grip(x: Activator): set<Db> { x.leases.Keys + if x.phase.Fenced? then {x.phase.source} else {} }

  /** Leased and retired databases exist and lie behind no gate. */
  ghost predicate Grounded(d: Disk, activators: map<nat, Activator>)
  {
    && (forall a, s :: a in activators && s in Grip(activators[a]) ==> Anchored(d, s))
    && (forall s :: s in d.retired ==> Anchored(d, s))
  }

  ghost predicate Calm(w: World)
  {
    && Papers(w.disk, w.writers) && Apart(w.activators) && Grounded(w.disk, w.activators)
    && (forall a :: a in w.activators ==> Placed(w.disk, w.writers, w.activators[a]))
    && (forall a :: a in w.activators ==> Checked(w.disk, w.writers, w.activators, w.activators[a]))
  }

  /** Two activations of one request never hold all its sources together. */
  lemma OneHolder(w: World, a: nat, b: nat)
    requires Inv(w) && a in w.activators && b in w.activators
    requires Leased(w.activators[a].phase) && Leased(w.activators[b].phase)
    requires w.activators[a].request == w.activators[b].request
    ensures a == b
  {
    hide Frozen, Retired, NoWriterOnRetired;
    var x, y := w.activators[a], w.activators[b];
    assert LocalOk(w.disk, a, x) && LocalOk(w.disk, b, y);
    var s :| s in x.request.members;
    assert s in Holds(x) && s in Holds(y);
  }

  // ---------------------------------------------------------------- what one step can touch

  /** What a step of an activation may change of its own destination; all others stay. */
  ghost predicate Touches(d: Disk, x: Activator, next: Local)
  {
    var e, r, t := next.disk, x.request, x.request.dest;
    && next.x.request == r && d.dirs <= e.dirs
    && (forall q :: q != t ==> (q in d.dirs <==> q in e.dirs) && (q in d.gates <==> q in e.gates))
    && (forall q :: q != t ==> (q in d.pending <==> q in e.pending) && (q in d.receipts <==> q in e.receipts))
    && (forall q :: q != t && q in e.pending ==> e.pending[q] == d.pending[q])
    && (forall q :: q != t && q in e.receipts ==> e.receipts[q] == d.receipts[q])
    && (forall s :: s in d.content ==> s in e.content && e.content[s] == d.content[s])
    && (forall s :: s in e.content ==> s in d.content || (Within(x.phase) && s.dir == t && Names(r, s)))
    && (t in e.pending ==> (t in d.pending && e.pending[t] == d.pending[t]) || (Within(x.phase) && e.pending[t] == r))
    && (t in e.receipts ==> (t in d.receipts && e.receipts[t] == d.receipts[t]) || (Within(x.phase) && e.receipts[t] == r))
  }

  lemma CopyTouches(d: Disk, a: nat, x: Activator, s: Db)
    ensures CopyMember(d, a, x, s).Some? ==> Touches(d, x, CopyMember(d, a, x, s).value)
  {
    hide LeasesOk, Touches;
    if CopyMember(d, a, x, s).Some? {
      assert Names(x.request, Component(x.request, s));
      hide Names;
      var next := CopyMember(d, a, x, s).value;
      ComponentTouches(d, x, next, Component(x.request, s), x.request.members[s].content);
    }
  }

  lemma ComponentTouches(d: Disk, x: Activator, next: Local, target: Db, value: string)
    requires next.disk == d || (target !in d.content && next.disk == d.(content := d.content[target := value]))
    requires target.dir == x.request.dest && Names(x.request, target) && Within(x.phase) && next.x.request == x.request
    ensures Touches(d, x, next)
  {
    hide Names;
  }

  lemma ActionTouches(w: World, a: nat, action: Action)
    requires a in w.activators && LocalStep(w, a, action).Some?
    ensures Touches(w.disk, w.activators[a], LocalStep(w, a, action).value)
  {
    hide Touches, LocalStep;
    if action.Copy? {
      assert LocalStep(w, a, action) == CopyMember(w.disk, a, w.activators[a], action.s) by { CopyIs(w, a, action.s); }
      CopyTouches(w.disk, a, w.activators[a], action.s);
    } else if Quiet(action) {
      QuietDisk(w, a, action);
      TouchesNothing(w.disk, w.activators[a], LocalStep(w, a, action).value);
    } else if Bookkeeping(action) {
      BookkeepingDisk(w, a, action);
      TouchesNothing(w.disk, w.activators[a], LocalStep(w, a, action).value);
    } else {
      DirTouches(w, a, action);
    }
  }

  lemma CopyIs(w: World, a: nat, s: Db)
    requires a in w.activators
    ensures LocalStep(w, a, Copy(s)) == CopyMember(w.disk, a, w.activators[a], s)
  {
  }

  lemma TouchesNothing(d: Disk, x: Activator, next: Local)
    requires var e := next.disk; e == d.(records := e.records, retired := e.retired, reservations := e.reservations)
    requires next.x.request == x.request
    ensures Touches(d, x, next)
  {
  }

  lemma DirTouches(w: World, a: nat, action: Action)
    requires a in w.activators && LocalStep(w, a, action).Some? && !Quiet(action) && !Bookkeeping(action) && !action.Copy?
    ensures Touches(w.disk, w.activators[a], LocalStep(w, a, action).value)
  {
    hide LeasesOk, ComponentsExist, Initializing, Names;
  }

  /** Outside its destination an activation leaves documents, gates and contents alone; opening
      may make the directory. */
  lemma OutsideStays(w: World, a: nat, action: Action)
    requires a in w.activators && !Within(w.activators[a].phase) && LocalStep(w, a, action).Some?
    ensures var d, e := w.disk, LocalStep(w, a, action).value.disk;
            && e.gates == d.gates && e.pending == d.pending && e.receipts == d.receipts && e.content == d.content
            && (!action.Open? ==> e.dirs == d.dirs)
  {
    if Quiet(action) {
      hide LocalStep;
      QuietDisk(w, a, action);
    } else if Bookkeeping(action) {
      hide LocalStep;
      BookkeepingDisk(w, a, action);
    } else {
      hide LeasesOk, ComponentsExist, Initializing;
    }
  }

  /** The two ways into a destination. */
  lemma Entering(w: World, a: nat, action: Action)
    requires a in w.activators && LocalStep(w, a, action).Some?
    requires var p := LocalStep(w, a, action).value.x.phase; (Within(p) && !Within(w.activators[a].phase)) || (p.Rehashing? && !w.activators[a].phase.Rehashing?)
    ensures action.Open? || action.Adopt?
  {
    hide LeasesOk, ComponentsExist, Initializing, Acceptable, Continues, HeldBySome, SharedBySome, RetirementAllows, LeaseOk;
  }

  // ---------------------------------------------------------------- its own destination

  /** Components that were right stay right while contents are kept. */
  lemma Carried(d: Disk, x: Activator, e: Disk, y: Activator)
    requires ComponentsRight(d, x) && y.request == x.request && Compared(y) <= Compared(x)
    requires forall s :: s in d.content ==> s in e.content && e.content[s] == d.content[s]
    ensures ComponentsRight(e, y)
  {
    hide Compared;
    forall s | s in Compared(y) ensures ComponentRight(e, y.request, s) {
      assert ComponentRight(d, x.request, s);
    }
  }

  /** All that an activation may rely on when it takes a step. */
  ghost predicate AtHome(w: World, a: nat)
  {
    a in w.activators &&
    var d, x := w.disk, w.activators[a];
    && Papers(d, w.writers) && Placed(d, w.writers, x) && Checked(d, w.writers, w.activators, x)
  }

  ghost predicate Home(w: World, a: nat, next: Local)
    requires a in w.activators
  {
    && Placed(next.disk, w.writers, next.x)
    && Checked(next.disk, w.writers, w.activators[a := next.x], next.x)
  }

  lemma OpenHome(w: World, a: nat)
    requires AtHome(w, a) && OpenDest(w.disk, a, w.activators[a]).Some?
    ensures Home(w, a, OpenDest(w.disk, a, w.activators[a]).value)
  {
    hide LeasesOk, ComponentsExist, Exposed;
    var next := OpenDest(w.disk, a, w.activators[a]).value;
    assert next.x.phase.Rehashing? ==> Sound(next.disk, w.writers, next.x);
  }

  lemma GateHome(w: World, a: nat)
    requires AtHome(w, a) && PutGate(w.disk, w.activators[a]).Some? && !Exposed(w.writers, w.activators[a].request)
    ensures Home(w, a, PutGate(w.disk, w.activators[a]).value)
  {
    hide Exposed;
  }

  lemma AnnounceHome(w: World, a: nat)
    requires AtHome(w, a) && PutPending(w.disk, w.activators[a]).Some?
    ensures Home(w, a, PutPending(w.disk, w.activators[a]).value)
  {
    hide Exposed, ComponentsRight;
    var next := PutPending(w.disk, w.activators[a]).value;
    Carried(w.disk, w.activators[a], next.disk, next.x);
  }

  lemma CopyHome(w: World, a: nat, s: Db)
    requires AtHome(w, a) && CopyMember(w.disk, a, w.activators[a], s).Some?
    ensures Home(w, a, CopyMember(w.disk, a, w.activators[a], s).value)
  {
    hide Exposed, LeasesOk;
    var next := CopyMember(w.disk, a, w.activators[a], s).value;
    Carried(w.disk, w.activators[a], next.disk, w.activators[a]);
    assert ComponentRight(next.disk, next.x.request, s);
  }

  lemma ReceiptHome(w: World, a: nat)
    requires AtHome(w, a) && PutReceipt(w.disk, a, w.activators[a]).Some?
    ensures Home(w, a, PutReceipt(w.disk, a, w.activators[a]).value)
  {
    hide Exposed, ComponentsRight, LeasesOk;
    var next := PutReceipt(w.disk, a, w.activators[a]).value;
    Carried(w.disk, w.activators[a], next.disk, next.x);
  }

  lemma CommitHome(w: World, a: nat)
    requires AtHome(w, a)
    ensures CommitReservation(w.disk, w.activators[a]).Some? ==> Home(w, a, CommitReservation(w.disk, w.activators[a]).value)
    ensures RemovePending(w.disk, w.activators[a]).Some? ==> Home(w, a, RemovePending(w.disk, w.activators[a]).value)
  {
    hide Exposed, ComponentsRight;
    var d, x := w.disk, w.activators[a];
    if CommitReservation(d, x).Some? && x.request.dest in d.dirs {
      Carried(d, x, CommitReservation(d, x).value.disk, CommitReservation(d, x).value.x);
    }
    if RemovePending(d, x).Some? && x.request.dest in d.dirs {
      Carried(d, x, RemovePending(d, x).value.disk, RemovePending(d, x).value.x);
    }
  }

  lemma AdoptHome(w: World, a: nat)
    requires AtHome(w, a) && AdoptReceipt(w.disk, a, w.activators[a]).Some?
    ensures Sound(w.disk, w.writers, w.activators[a])
    ensures Home(w, a, AdoptReceipt(w.disk, a, w.activators[a]).value)
  {
    hide Exposed, ComponentsRight, LeasesOk, Names;
    var x, next := w.activators[a], AdoptReceipt(w.disk, a, w.activators[a]).value;
    Carried(w.disk, x, next.disk, next.x);
  }

  lemma RehashHome(w: World, a: nat, s: Db)
    requires AtHome(w, a) && RehashMember(w.disk, w.activators[a], s).Some?
    ensures Home(w, a, RehashMember(w.disk, w.activators[a], s).value)
  {
    hide Exposed, Names;
    var x, next := w.activators[a], RehashMember(w.disk, w.activators[a], s).value;
    if x.request.dest in w.disk.dirs {
      if Sound(w.disk, w.writers, x) {
        assert ComponentRight(w.disk, x.request, s);
        assert Sound(next.disk, w.writers, next.x);
      } else {
        var m :| Stale(w.disk, w.activators, x, m);
        assert Stale(next.disk, w.activators[a := next.x], next.x, m);
      }
    }
  }

  lemma ActionHome(w: World, a: nat, action: Action)
    requires AtHome(w, a) && Orderly(w, Act(a, action)) && LocalStep(w, a, action).Some?
    ensures Home(w, a, LocalStep(w, a, action).value)
  {
    if action.Open? || action.RaiseGate? || action.Announce? || action.Copy? || action.WriteReceipt? || action.Commit?
      || action.ClearPending? || action.Adopt? || action.Rehash? {
      hide AtHome, Home, OpenDest, PutGate, PutPending, CopyMember, PutReceipt, CommitReservation, RemovePending,
           AdoptReceipt, RehashMember;
      match action
      case Open => OpenHome(w, a);
      case RaiseGate => GateHome(w, a);
      case Announce => AnnounceHome(w, a);
      case Copy(s) => CopyHome(w, a, s);
      case WriteReceipt => ReceiptHome(w, a);
      case Adopt => AdoptHome(w, a);
      case Rehash(s) => RehashHome(w, a, s);
      case _ => CommitHome(w, a);
    } else {
      OtherHome(w, a, action);
    }
  }

  lemma OtherHome(w: World, a: nat, action: Action)
    requires a in w.activators && LocalStep(w, a, action).Some?
    requires !action.Open? && !action.RaiseGate? && !action.Announce? && !action.Copy? && !action.WriteReceipt?
      && !action.Commit? && !action.ClearPending? && !action.Adopt? && !action.Rehash?
    ensures Home(w, a, LocalStep(w, a, action).value)
  {
    hide LeasesOk, ComponentsExist, Initializing, Acceptable, Continues, HeldBySome, SharedBySome, RetirementAllows, LeaseOk,
         Exposed, ComponentsRight, Stale, Sound, Vacant;
  }

  // ---------------------------------------------------------------- documents and anchors

  lemma PapersKept(w: World, a: nat, action: Action)
    requires AtHome(w, a) && Orderly(w, Act(a, action)) && LocalStep(w, a, action).Some?
    ensures Papers(LocalStep(w, a, action).value.disk, w.writers)
  {
    hide LeasesOk, ComponentsExist, Acceptable, Continues, HeldBySome, SharedBySome, RetirementAllows, LeaseOk,
         Exposed, ComponentsRight, Stale, Sound, Checked, Contested, Initializing;
  }

  /** A gate is raised only in a vacant directory, so no anchored database comes to lie behind one. */
  lemma AnchorKept(w: World, a: nat, action: Action, s: Db)
    requires AtHome(w, a) && LocalStep(w, a, action).Some? && Anchored(w.disk, s)
    ensures Anchored(LocalStep(w, a, action).value.disk, s)
  {
    hide LeasesOk, ComponentsExist, Acceptable, Continues, HeldBySome, SharedBySome, RetirementAllows, LeaseOk,
         Exposed, ComponentsRight, Stale, Sound, Checked, Initializing, Papers;
  }

  lemma GripGrows(w: World, a: nat, action: Action, s: Db)
    requires a in w.activators && LeasesRight(w.disk, a, w.activators[a]) && LocalStep(w, a, action).Some?
    ensures var next := LocalStep(w, a, action).value;
            s in Grip(next.x) ==> s in Grip(w.activators[a]) || Anchored(w.disk, s)
  {
    hide LeasesOk, ComponentsExist, Acceptable, Continues, HeldBySome, SharedBySome, RetirementAllows, LeaseOk, Initializing;
  }

  lemma MarkedInGrip(w: World, a: nat, action: Action, s: Db)
    requires a in w.activators && LeasesRight(w.disk, a, w.activators[a]) && LocalStep(w, a, action).Some?
    ensures s in LocalStep(w, a, action).value.disk.retired ==> s in w.disk.retired || s in Grip(w.activators[a])
  {
    if !action.Retire? {
      hide LeasesRight, LocalStep;
      MarkersLeft(w, a, action);
    }
  }

  lemma MarkersLeft(w: World, a: nat, action: Action)
    requires a in w.activators && LocalStep(w, a, action).Some? && !action.Retire?
    ensures LocalStep(w, a, action).value.disk.retired == w.disk.retired
  {
    hide LeasesOk, ComponentsExist, Acceptable, Continues, HeldBySome, SharedBySome, RetirementAllows, LeaseOk, Initializing;
  }

  lemma KnowsLeases(w: World, a: nat)
    requires Inv(w) && a in w.activators
    ensures LeasesRight(w.disk, a, w.activators[a])
  {
    assert LocalOk(w.disk, a, w.activators[a]);
    hide LeasesRight;
  }

  lemma GroundKept(w: World, a: nat, action: Action)
    requires a in w.activators && Inv(w) && AtHome(w, a) && Grounded(w.disk, w.activators) && LocalStep(w, a, action).Some?
    ensures Grounded(LocalStep(w, a, action).value.disk, w.activators[a := LocalStep(w, a, action).value.x])
  {
    hide *;
    var next := LocalStep(w, a, action).value;
    var all := w.activators[a := next.x];
    KnowsLeases(w, a);
    forall b, s | b in all && s in Grip(all[b]) ensures Anchored(next.disk, s) { GripAnchored(w, a, action, b, s); }
    forall s | s in next.disk.retired ensures Anchored(next.disk, s) { MarkAnchored(w, a, action, s); }
    GroundedFrom(next.disk, all);
  }

  lemma GripAnchored(w: World, a: nat, action: Action, b: nat, s: Db)
    requires a in w.activators && LocalStep(w, a, action).Some? && LeasesRight(w.disk, a, w.activators[a])
    requires AtHome(w, a) && Grounded(w.disk, w.activators)
    requires b in w.activators[a := LocalStep(w, a, action).value.x] && s in Grip(w.activators[a := LocalStep(w, a, action).value.x][b])
    ensures Anchored(LocalStep(w, a, action).value.disk, s)
  {
    hide LocalStep, LeasesRight, AtHome, Grip, Anchored;
    if b == a { GripGrows(w, a, action, s); }
    AnchorKept(w, a, action, s);
  }

  lemma MarkAnchored(w: World, a: nat, action: Action, s: Db)
    requires a in w.activators && LocalStep(w, a, action).Some? && LeasesRight(w.disk, a, w.activators[a])
    requires AtHome(w, a) && Grounded(w.disk, w.activators) && s in LocalStep(w, a, action).value.disk.retired
    ensures Anchored(LocalStep(w, a, action).value.disk, s)
  {
    hide LocalStep, LeasesRight, AtHome, Grip, Anchored;
    MarkedInGrip(w, a, action, s);
    AnchorKept(w, a, action, s);
  }

  lemma GroundedFrom(d: Disk, activators: map<nat, Activator>)
    requires forall a, s :: a in activators && s in Grip(activators[a]) ==> Anchored(d, s)
    requires forall s :: s in d.retired ==> Anchored(d, s)
    ensures Grounded(d, activators)
  {
    hide Grip, Anchored;
  }

  // ---------------------------------------------------------------- the others

  /** Nothing in or about the directory has changed. */
  predicate SameIn(d: Disk, e: Disk, t: Dir)
  {
    && (t in d.dirs <==> t in e.dirs) && (t in d.gates <==> t in e.gates)
    && (t in d.pending <==> t in e.pending) && (t in d.pending ==> e.pending[t] == d.pending[t])
    && (t in d.receipts <==> t in e.receipts) && (t in d.receipts ==> e.receipts[t] == d.receipts[t])
    && (forall s :: s in d.content ==> s in e.content && e.content[s] == d.content[s])
    && (forall s :: s in e.content && s.dir == t ==> s in d.content)
  }

  lemma ElsewhereSame(d: Disk, x: Activator, next: Local, t: Dir)
    requires Touches(d, x, next) && t != x.request.dest
    ensures SameIn(d, next.disk, t)
  {
    hide Names;
  }

  lemma PlacedSame(d: Disk, e: Disk, writers: map<nat, Writer>, y: Activator)
    requires SameIn(d, e, y.request.dest) && Placed(d, writers, y)
    ensures Placed(e, writers, y)
  {
    hide Exposed, ComponentsRight;
    if Within(y.phase) && y.request.dest in d.dirs { Carried(d, y, e, y); }
  }

  lemma CheckedSame(d: Disk, e: Disk, writers: map<nat, Writer>, before: map<nat, Activator>, after: map<nat, Activator>, y: Activator)
    requires SameIn(d, e, y.request.dest) && Checked(d, writers, before, y)
    requires forall b :: b in after && Within(after[b].phase) && after[b].request.dest == y.request.dest ==>
      b in before && Within(before[b].phase) && before[b].request == after[b].request
    ensures Checked(e, writers, after, y)
  {
    hide Exposed, ComponentsRight, Names;
    if y.phase.Rehashing? && y.request.dest in d.dirs {
      if Sound(d, writers, y) {
        Carried(d, y, e, y);
      } else {
        var s :| Stale(d, before, y, s);
        assert Stale(e, after, y, s);
      }
    }
  }

  /** A directory in which an activation is at work has no sound comparison of another. */
  lemma NotSound(w: World, a: nat, b: nat)
    requires Inv(w) && a in w.activators && b in w.activators && a != b
    requires w.activators[a].request.dest == w.activators[b].request.dest && w.activators[b].phase.Rehashing?
    requires Within(w.activators[a].phase) && Placed(w.disk, w.writers, w.activators[a]) && w.activators[a].request.dest in w.disk.dirs
    ensures !Sound(w.disk, w.writers, w.activators[b])
  {
    hide Inv, Exposed, ComponentsRight;
    if Sound(w.disk, w.writers, w.activators[b]) {
      OneHolder(w, a, b);
    }
  }

  /** A comparison that has gone stale stays so while one activation works on. */
  lemma StaleStays(w: World, a: nat, next: Local, b: nat, s: Db)
    requires a in w.activators && b in w.activators && a != b && Touches(w.disk, w.activators[a], next)
    requires w.activators[a].request.dest == w.activators[b].request.dest
    requires Stale(w.disk, w.activators, w.activators[b], s)
    requires Within(w.activators[a].phase) || Within(next.x.phase) ==>
      !Names(w.activators[a].request, Component(w.activators[b].request, s))
    ensures Stale(next.disk, w.activators[a := next.x], w.activators[b], s)
  {
    hide Names;
  }

  /** Work in a directory, or the removal of its owner, leaves the comparisons of others as they were. */
  lemma WorkKeepsChecked(w: World, a: nat, action: Action, b: nat)
    requires Inv(w) && Calm(w) && a in w.activators && b in w.activators && a != b && LocalStep(w, a, action).Some?
    requires w.activators[a].request.dest == w.activators[b].request.dest && Within(w.activators[a].phase)
    requires LocalStep(w, a, action).value.disk.dirs == w.disk.dirs
    ensures Checked(LocalStep(w, a, action).value.disk, w.writers, w.activators[a := LocalStep(w, a, action).value.x], w.activators[b])
  {
    var y, next := w.activators[b], LocalStep(w, a, action).value;
    if y.phase.Rehashing? && y.request.dest in w.disk.dirs {
      assert Placed(w.disk, w.writers, w.activators[a]) && Checked(w.disk, w.writers, w.activators, y);
      hide Inv, Calm, LocalStep, Sound, Stale, Placed, Names;
      NotSound(w, a, b);
      var s :| Stale(w.disk, w.activators, y, s);
      ActionTouches(w, a, action);
      assert !Names(w.activators[a].request, Component(y.request, s)) by { NotNamed(w, a, y, s); }
      StaleStays(w, a, next, b, s);
    }
  }

  lemma NotNamed(w: World, a: nat, y: Activator, s: Db)
    requires a in w.activators && Within(w.activators[a].phase) && w.activators[a].request.dest == y.request.dest
    requires Stale(w.disk, w.activators, y, s)
    ensures s in y.request.members && !Names(w.activators[a].request, Component(y.request, s))
  {
    hide Names;
  }

  /** Whoever opens a directory that is fresh finds only comparisons it cannot complete. */
  lemma FreshKeepsChecked(w: World, a: nat, b: nat)
    requires Inv(w) && Calm(w) && a in w.activators && b in w.activators && a != b && OpenDest(w.disk, a, w.activators[a]).Some?
    requires w.activators[a].request.dest == w.activators[b].request.dest
    requires Fresh(w.disk, w.activators[a].request.dest) && !Contested(w.activators, a)
    ensures var next := OpenDest(w.disk, a, w.activators[a]).value;
            !Within(w.activators[b].phase) && Checked(next.disk, w.writers, w.activators[a := next.x], w.activators[b])
  {
    hide Inv, LeasesOk, ComponentsExist, Names, Sound, Exposed, ComponentsRight;
    var y, next := w.activators[b], OpenDest(w.disk, a, w.activators[a]).value;
    assert Papers(w.disk, w.writers);
    assert !Within(y.phase);
    if y.phase.Rehashing? {
      var s :| s in y.request.members && s !in y.done && !Names(w.activators[a].request, Component(y.request, s));
      hide Calm, Placed, Checked;
      assert Vacant(next.disk, y.request.dest);
      assert forall c :: c in w.activators && c != a && w.activators[c].request.dest == y.request.dest ==> !Within(w.activators[c].phase);
      assert Stale(next.disk, w.activators[a := next.x], y, s);
    }
  }

  /** Whoever takes up a copy that lies there is at work alone. */
  lemma ResumedAlone(w: World, a: nat, b: nat)
    requires Inv(w) && Calm(w) && a in w.activators && b in w.activators && a != b && OpenDest(w.disk, a, w.activators[a]).Some?
    requires w.activators[a].request.dest == w.activators[b].request.dest
    requires !Fresh(w.disk, w.activators[a].request.dest)
    ensures OpenDest(w.disk, a, w.activators[a]).value.disk == w.disk
    ensures Within(OpenDest(w.disk, a, w.activators[a]).value.x.phase) ==>
      && w.activators[a].request.dest in w.disk.pending && w.disk.pending[w.activators[a].request.dest] == w.activators[a].request
      && w.activators[a].request.dest !in w.disk.receipts
    ensures Within(OpenDest(w.disk, a, w.activators[a]).value.x.phase) ==> !Within(w.activators[b].phase)
  {
    hide LeasesOk, ComponentsExist, Names, Sound, Exposed, ComponentsRight, Inv, Checked;
    assert Placed(w.disk, w.writers, w.activators[b]);
    hide Calm;
    if Within(OpenDest(w.disk, a, w.activators[a]).value.x.phase) && Within(w.activators[b].phase) {
      OneHolder(w, a, b);
    }
  }

  /** Whoever goes on with a pending copy names nothing that the pending record does not name. */
  lemma StaleResumed(w: World, a: nat, next: Local, y: Activator, s: Db)
    requires a in w.activators && next.disk == w.disk && next.x.request.dest == y.request.dest
    requires Within(next.x.phase) ==>
      next.x.request.dest in w.disk.pending && w.disk.pending[next.x.request.dest] == next.x.request
    requires Stale(w.disk, w.activators, y, s)
    ensures Stale(next.disk, w.activators[a := next.x], y, s)
  {
    hide Names;
  }

  lemma ResumedRequest(d: Disk, a: nat, x: Activator)
    requires OpenDest(d, a, x).Some?
    ensures OpenDest(d, a, x).value.x.request == x.request
  {
    hide LeasesOk, ComponentsExist, Initializing;
  }

  lemma ResumeKeepsChecked(w: World, a: nat, b: nat)
    requires Inv(w) && Calm(w) && a in w.activators && b in w.activators && a != b && OpenDest(w.disk, a, w.activators[a]).Some?
    requires w.activators[a].request.dest == w.activators[b].request.dest
    requires !Fresh(w.disk, w.activators[a].request.dest)
    ensures var next := OpenDest(w.disk, a, w.activators[a]).value;
            Checked(next.disk, w.writers, w.activators[a := next.x], w.activators[b])
  {
    var y, next := w.activators[b], OpenDest(w.disk, a, w.activators[a]).value;
    ResumedAlone(w, a, b);
    ResumedRequest(w.disk, a, w.activators[a]);
    assert Checked(w.disk, w.writers, w.activators, y) by { hide Inv, Placed, Checked, Papers, Apart, Grounded; }
    hide Inv, Calm, OpenDest, Names, Exposed, ComponentsRight, Fresh, Sound, Stale;
    if y.phase.Rehashing? && y.request.dest in w.disk.dirs && !Sound(w.disk, w.writers, y) {
      var s :| Stale(w.disk, w.activators, y, s);
      assert Stale(next.disk, w.activators[a := next.x], y, s) by { hide Checked; StaleResumed(w, a, next, y, s); }
    }
  }

  /** Adopting its own receipt, an activation is at work alone. */
  lemma AdoptedAlone(w: World, a: nat, b: nat)
    requires Inv(w) && Calm(w) && a in w.activators && b in w.activators && a != b
    requires AdoptReceipt(w.disk, a, w.activators[a]).Some?
    requires w.activators[a].request.dest == w.activators[b].request.dest
    ensures var next := AdoptReceipt(w.disk, a, w.activators[a]).value;
            !Within(w.activators[b].phase) && Checked(next.disk, w.writers, w.activators[a := next.x], w.activators[b])
  {
    var x, y, next := w.activators[a], w.activators[b], AdoptReceipt(w.disk, a, w.activators[a]).value;
    assert AtHome(w, a) by { hide Inv, AdoptReceipt, AtHome; HomeOf(w, a); }
    PlacedOf(w, b);
    AdoptHome(w, a);
    assert Papers(w.disk, w.writers);
    hide Calm, AtHome, Home, Names, Exposed, ComponentsRight, Inv, LeasesOk, Papers;
    assert Leased(x.phase) && next.x.request == x.request && next.disk == w.disk.(reservations := next.disk.reservations);
    hide AdoptReceipt;
    AdoptedApart(w, a, b);
    if y.phase.Rehashing? && y.request.dest in w.disk.dirs {
      hide Sound;
      var s :| Stale(w.disk, w.activators, y, s);
      hide Checked, Placed;
      AdoptedStale(w, a, next, b, s);
    }
  }

  lemma HomeOf(w: World, a: nat)
    requires Calm(w) && a in w.activators
    ensures AtHome(w, a)
  {
    hide Placed, Checked, Papers;
  }

  lemma AdoptedApart(w: World, a: nat, b: nat)
    requires Inv(w) && a in w.activators && b in w.activators && a != b && Leased(w.activators[a].phase)
    requires Sound(w.disk, w.writers, w.activators[a]) && Papers(w.disk, w.writers)
    requires w.activators[a].request.dest == w.activators[b].request.dest
    requires Placed(w.disk, w.writers, w.activators[b])
    ensures !Within(w.activators[b].phase)
    ensures w.activators[b].phase.Rehashing? ==> !Sound(w.disk, w.writers, w.activators[b])
  {
    hide Inv, Exposed, ComponentsRight;
    if Leased(w.activators[b].phase) && w.activators[a].request == w.activators[b].request {
      OneHolder(w, a, b);
    }
  }

  lemma AdoptedStale(w: World, a: nat, next: Local, b: nat, s: Db)
    requires a in w.activators && b in w.activators && a != b
    requires Sound(w.disk, w.writers, w.activators[a]) && Stale(w.disk, w.activators, w.activators[b], s)
    requires w.activators[a].request.dest == w.activators[b].request.dest
    requires next.x.request == w.activators[a].request && next.disk == w.disk.(reservations := next.disk.reservations)
    ensures Stale(next.disk, w.activators[a := next.x], w.activators[b], s)
  {
    hide Names, Exposed, ComponentsRight;
  }

  /** The step of one activation leaves every other as it was. */
  /** Whoever works in another directory changes nothing here. */
  lemma ApartKeeps(w: World, a: nat, action: Action, b: nat)
    requires a in w.activators && b in w.activators && a != b && LocalStep(w, a, action).Some?
    requires w.activators[a].request.dest != w.activators[b].request.dest
    requires Placed(w.disk, w.writers, w.activators[b]) && Checked(w.disk, w.writers, w.activators, w.activators[b])
    ensures var next := LocalStep(w, a, action).value;
            && Placed(next.disk, w.writers, w.activators[b])
            && Checked(next.disk, w.writers, w.activators[a := next.x], w.activators[b])
  {
    var x, y, next := w.activators[a], w.activators[b], LocalStep(w, a, action).value;
    ActionTouches(w, a, action);
    hide LocalStep, Placed, Checked, Touches, SameIn;
    ElsewhereSame(w.disk, x, next, y.request.dest);
    PlacedSame(w.disk, next.disk, w.writers, y);
    assert next.x.request == x.request by { SameRequest(w.disk, x, next); }
    CheckedSame(w.disk, next.disk, w.writers, w.activators, w.activators[a := next.x], y);
  }

  lemma OthersKeep(w: World, a: nat, action: Action, b: nat)
    requires Inv(w) && Calm(w) && a in w.activators && b in w.activators && a != b
    requires Orderly(w, Act(a, action)) && LocalStep(w, a, action).Some?
    ensures var next := LocalStep(w, a, action).value;
            && Placed(next.disk, w.writers, w.activators[b])
            && Checked(next.disk, w.writers, w.activators[a := next.x], w.activators[b])
            && (w.activators[a].request.dest == w.activators[b].request.dest && Within(next.x.phase) ==> !Within(w.activators[b].phase))
  {
    var x, y, next := w.activators[a], w.activators[b], LocalStep(w, a, action).value;
    assert Placed(w.disk, w.writers, y) && Checked(w.disk, w.writers, w.activators, y);
    assert Apart(w.activators);
    ActionTouches(w, a, action);
    if x.request.dest != y.request.dest {
      hide Inv, Calm, LocalStep, Placed, Checked, Orderly, Touches, Apart, SameIn;
      ApartKeeps(w, a, action, b);
    } else {
      hide Inv, Calm, Placed, Checked, Touches;
      if action.Open? {
        OpenKeepsOther(w, a, b);
      } else if Within(x.phase) {
        hide LocalStep, Orderly;
        InsideDirs(w, a, action);
        WorkKeepsChecked(w, a, action, b);
        NotWithin(w.disk, next.disk, w.writers, y);
      } else {
        OutsideKeepsOther(w, a, action, b);
      }
    }
  }

  lemma SameRequest(d: Disk, x: Activator, next: Local)
    requires Touches(d, x, next)
    ensures next.x.request == x.request
  {
  }

  lemma NotWithin(d: Disk, e: Disk, writers: map<nat, Writer>, y: Activator)
    ensures !Within(y.phase) ==> Placed(e, writers, y)
  {
  }

  lemma InsideDirs(w: World, a: nat, action: Action)
    requires a in w.activators && Within(w.activators[a].phase) && LocalStep(w, a, action).Some?
    ensures LocalStep(w, a, action).value.disk.dirs == w.disk.dirs
  {
    hide LeasesOk, ComponentsExist, Initializing, Acceptable, Continues, HeldBySome, SharedBySome, RetirementAllows, LeaseOk;
  }

  lemma OpenKeepsOther(w: World, a: nat, b: nat)
    requires Inv(w) && Calm(w) && a in w.activators && b in w.activators && a != b
    requires Orderly(w, Act(a, Open)) && OpenDest(w.disk, a, w.activators[a]).Some?
    requires w.activators[a].request.dest == w.activators[b].request.dest
    ensures var next := OpenDest(w.disk, a, w.activators[a]).value;
            && Placed(next.disk, w.writers, w.activators[b])
            && Checked(next.disk, w.writers, w.activators[a := next.x], w.activators[b])
            && (Within(next.x.phase) ==> !Within(w.activators[b].phase))
  {
    hide Inv, Calm, OpenDest, Placed, Checked, Contested;
    if Fresh(w.disk, w.activators[a].request.dest) {
      FreshKeepsChecked(w, a, b);
      NotWithin(w.disk, OpenDest(w.disk, a, w.activators[a]).value.disk, w.writers, w.activators[b]);
    } else {
      assert Placed(w.disk, w.writers, w.activators[b]) by { PlacedOf(w, b); }
      ResumedAlone(w, a, b);
      ResumeKeepsChecked(w, a, b);
    }
  }

  lemma PlacedOf(w: World, b: nat)
    requires Calm(w) && b in w.activators
    ensures Placed(w.disk, w.writers, w.activators[b]) && Checked(w.disk, w.writers, w.activators, w.activators[b])
  {
    hide Placed, Checked;
  }

  lemma OutsideKeepsOther(w: World, a: nat, action: Action, b: nat)
    requires Inv(w) && Calm(w) && a in w.activators && b in w.activators && a != b
    requires LocalStep(w, a, action).Some? && !action.Open? && !Within(w.activators[a].phase)
    requires w.activators[a].request.dest == w.activators[b].request.dest
    ensures var next := LocalStep(w, a, action).value;
            && Placed(next.disk, w.writers, w.activators[b])
            && Checked(next.disk, w.writers, w.activators[a := next.x], w.activators[b])
            && (Within(next.x.phase) ==> !Within(w.activators[b].phase))
  {
    var next := LocalStep(w, a, action).value;
    hide Inv, Calm, Placed, Checked, LocalStep;
    if action.Adopt? {
      assert LocalStep(w, a, Adopt) == AdoptReceipt(w.disk, a, w.activators[a]) by { AdoptShape(w, a); }
      hide AdoptReceipt;
      AdoptedAlone(w, a, b);
      NotWithin(w.disk, next.disk, w.writers, w.activators[b]);
    } else {
      PlacedOf(w, b);
      OutsideStays(w, a, action);
      if Within(next.x.phase) { Entering(w, a, action); }
      StillOutside(w, a, next, b);
    }
  }

  lemma AdoptShape(w: World, a: nat)
    requires a in w.activators
    ensures LocalStep(w, a, Adopt) == AdoptReceipt(w.disk, a, w.activators[a])
  {
    hide AdoptReceipt;
  }

  lemma StillOutside(w: World, a: nat, next: Local, b: nat)
    requires a in w.activators && b in w.activators && a != b && !Within(next.x.phase)
    requires Placed(w.disk, w.writers, w.activators[b]) && Checked(w.disk, w.writers, w.activators, w.activators[b])
    requires var d, e := w.disk, next.disk;
             && e.gates == d.gates && e.pending == d.pending && e.receipts == d.receipts && e.content == d.content
             && e.dirs == d.dirs
    ensures Placed(next.disk, w.writers, w.activators[b])
    ensures Checked(next.disk, w.writers, w.activators[a := next.x], w.activators[b])
  {
    hide Placed, Checked, Within;
    PlacedSame(w.disk, next.disk, w.writers, w.activators[b]);
    CheckedSame(w.disk, next.disk, w.writers, w.activators, w.activators[a := next.x], w.activators[b]);
  }

  // ---------------------------------------------------------------- every orderly step

  lemma ActivationCalm(w: World, a: nat, action: Action)
    requires Inv(w) && Calm(w) && ActivationStep(w, a, action).Some? && Orderly(w, Act(a, action))
    ensures Calm(ActivationStep(w, a, action).value)
  {
    var x := w.activators[a];
    var next := LocalStep(w, a, action).value;
    hide Inv, LocalStep, AtHome, Home, Calm, Orderly, Noted, Touches, Placed, Checked;
    HomeOf(w, a);
    ActionTouches(w, a, action);
    SameRequest(w.disk, x, next);
    ActionHome(w, a, action);
    PapersKept(w, a, action);
    assert Grounded(w.disk, w.activators) && Apart(w.activators) by { CalmParts(w); }
    hide Grounded, Apart;
    GroundKept(w, a, action);
    forall b | b in w.activators && b != a
      ensures Placed(next.disk, w.writers, w.activators[b]) && Checked(next.disk, w.writers, w.activators[a := next.x], w.activators[b])
      ensures w.activators[b].request.dest == x.request.dest && Within(next.x.phase) ==> !Within(w.activators[b].phase)
    {
      OthersKeep(w, a, action, b);
    }
    var v := ActivationStep(w, a, action).value;
    assert v.disk == next.disk && v.writers == w.writers && v.activators == w.activators[a := next.x];
    hide ActivationStep;
    CalmAgain(w, a, next, v);
  }

  lemma CalmParts(w: World)
    requires Calm(w)
    ensures Papers(w.disk, w.writers) && Apart(w.activators) && Grounded(w.disk, w.activators)
  {
    hide Papers, Apart, Grounded, Placed, Checked;
  }

  lemma CalmAgain(w: World, a: nat, next: Local, v: World)
    requires a in w.activators && v.disk == next.disk && v.writers == w.writers && v.activators == w.activators[a := next.x]
    requires next.x.request == w.activators[a].request && Apart(w.activators)
    requires Papers(v.disk, v.writers) && Grounded(v.disk, v.activators) && Home(w, a, next)
    requires forall b :: b in w.activators && b != a ==>
      && Placed(v.disk, v.writers, w.activators[b]) && Checked(v.disk, v.writers, v.activators, w.activators[b])
      && (w.activators[b].request.dest == next.x.request.dest && Within(next.x.phase) ==> !Within(w.activators[b].phase))
    ensures Calm(v)
  {
    hide Papers, Grounded, Placed, Checked;
  }

  /** Another set of writers that exposes no more leaves everything right. */
  lemma WritersCalm(w: World, v: World)
    requires Calm(w) && v.activators == w.activators && v.disk == w.disk
    requires forall c :: c in v.writers ==>
      (c in w.writers && v.writers[c].db == w.writers[c].db) || v.writers[c].db.dir !in w.disk.gates
    ensures Calm(v)
  {
    hide ComponentsRight, Stale, Grounded, Vacant;
    forall r: Request | r.dest in w.disk.gates && !Exposed(w.writers, r) ensures !Exposed(v.writers, r) {
      forall c | c in v.writers ensures !Names(r, v.writers[c].db) { }
    }
    hide Exposed, Names;
    forall a | a in v.activators ensures Checked(v.disk, v.writers, v.activators, v.activators[a]) {
      assert Checked(w.disk, w.writers, w.activators, w.activators[a]);
    }
    forall a | a in v.activators ensures Placed(v.disk, v.writers, v.activators[a]) {
      assert Placed(w.disk, w.writers, w.activators[a]);
    }
  }

  /** A connected writer changes no component that anybody has compared. */
  lemma WriteCalm(w: World, c: nat, value: string)
    requires Calm(w) && ClientStep(w, c, Write(value)).Some?
    ensures Calm(ClientStep(w, c, Write(value)).value)
  {
    var v := ClientStep(w, c, Write(value)).value;
    var db := w.writers[c].db;
    hide Stale;
    assert v.disk.content.Keys == w.disk.content.Keys;
    assert Papers(v.disk, v.writers) by { hide Exposed, Placed, Checked; }
    assert Grounded(v.disk, v.activators) by {
      hide Papers, Placed, Checked, Grip;
      assert forall s :: Anchored(w.disk, s) ==> Anchored(v.disk, s);
    }
    forall x: Activator | ComponentsRight(w.disk, x) && !Exposed(w.writers, x.request) ensures ComponentsRight(v.disk, x) {
      forall s | s in Compared(x) ensures ComponentRight(v.disk, x.request, s) {
        assert ComponentRight(w.disk, x.request, s);
      }
    }
    forall x: Activator, s | Stale(w.disk, w.activators, x, s) ensures Stale(v.disk, v.activators, x, s) {
      StillStale(w, v, x, s);
    }
    hide ComponentsRight, Exposed;
    forall a | a in v.activators ensures Checked(v.disk, v.writers, v.activators, v.activators[a]) {
      assert Checked(w.disk, w.writers, w.activators, w.activators[a]);
    }
    forall a | a in v.activators ensures Placed(v.disk, v.writers, v.activators[a]) {
      assert Placed(w.disk, w.writers, w.activators[a]);
      GatingRight(v.disk, v.activators[a]);
    }
  }

  lemma GatingRight(d: Disk, x: Activator)
    ensures x.phase.Gating? ==> ComponentsRight(d, x)
  {
  }

  lemma StillStale(w: World, v: World, x: Activator, s: Db)
    requires Stale(w.disk, w.activators, x, s) && v.activators == w.activators
    requires v.disk == w.disk.(content := v.disk.content) && v.disk.content.Keys == w.disk.content.Keys
    ensures Stale(v.disk, v.activators, x, s)
  {
    hide Names;
  }

  lemma ClientCalm(w: World, c: nat, use: Use)
    requires Calm(w) && ClientStep(w, c, use).Some?
    ensures Calm(ClientStep(w, c, use).value)
  {
    if use.Write? {
      hide Calm;
      WriteCalm(w, c, use.value);
    } else {
      hide Calm, HeldBySome;
      WritersCalm(w, ClientStep(w, c, use).value);
    }
  }

  lemma LossCalm(w: World, t: Dir)
    requires Inv(w) && Calm(w) && MayLose(w, t)
    ensures Calm(Next(w, LoseDir(t)).value)
  {
    var v := Next(w, LoseDir(t)).value;
    CalmParts(w);
    assert Grounded(v.disk, v.activators) by { hide Calm, Inv, Papers, Apart; GroundedElsewhere(w, t); }
    hide MayLose, Inv, Grounded;
    assert Papers(v.disk, v.writers) by { hide Exposed, Placed, Checked, Apart, Calm; }
    hide Papers;
    forall a | a in v.activators
      ensures Placed(v.disk, v.writers, v.activators[a]) && Checked(v.disk, v.writers, v.activators, v.activators[a])
    {
      var y := w.activators[a];
      assert Placed(w.disk, w.writers, y) && Checked(w.disk, w.writers, w.activators, y);
      if y.request.dest == t {
        hide ComponentsRight, Stale, Sound, Vacant, Exposed;
      } else {
        LostElsewhere(w.disk, v.disk, t, w.writers, w.activators, y);
      }
    }
  }

  lemma GroundedElsewhere(w: World, t: Dir)
    requires MayLose(w, t) && Grounded(w.disk, w.activators)
    ensures Grounded(WithoutDir(w.disk, t), w.activators)
  {
    var e := WithoutDir(w.disk, t);
    forall s | Anchored(w.disk, s) && s.dir != t ensures Anchored(e, s) { }
    hide WithoutDir, Anchored;
    forall a, s | a in w.activators && s in Grip(w.activators[a]) ensures Anchored(e, s) {
      assert s in Holds(w.activators[a]);
    }
  }

  lemma LostElsewhere(d: Disk, e: Disk, t: Dir, writers: map<nat, Writer>, activators: map<nat, Activator>, y: Activator)
    requires e == WithoutDir(d, t) && y.request.dest != t
    requires Placed(d, writers, y) && Checked(d, writers, activators, y)
    ensures Placed(e, writers, y) && Checked(e, writers, activators, y)
  {
    hide Exposed, Names, ComponentsRight, Sound, Stale;
    RightElsewhere(d, e, t, y);
    assert Sound(d, writers, y) ==> Sound(e, writers, y) by { hide *; SoundElsewhere(d, e, t, writers, y); }
    if y.phase.Rehashing? && y.request.dest in d.dirs && !Sound(d, writers, y) {
      var s :| Stale(d, activators, y, s);
      assert Stale(e, activators, y, s) by { hide *; StaleElsewhere(d, e, t, activators, y, s); }
    }
  }

  lemma RightElsewhere(d: Disk, e: Disk, t: Dir, y: Activator)
    requires e == WithoutDir(d, t) && y.request.dest != t
    ensures ComponentsRight(d, y) ==> ComponentsRight(e, y)
  {
    if ComponentsRight(d, y) {
      forall s | s in Compared(y) ensures ComponentRight(e, y.request, s) { assert ComponentRight(d, y.request, s); }
    }
  }

  lemma SoundElsewhere(d: Disk, e: Disk, t: Dir, writers: map<nat, Writer>, y: Activator)
    requires e == WithoutDir(d, t) && y.request.dest != t && (ComponentsRight(d, y) ==> ComponentsRight(e, y))
    ensures Sound(d, writers, y) ==> Sound(e, writers, y)
  {
    hide Exposed, ComponentsRight;
  }

  lemma StaleElsewhere(d: Disk, e: Disk, t: Dir, activators: map<nat, Activator>, y: Activator, s: Db)
    requires e == WithoutDir(d, t) && y.request.dest != t && Stale(d, activators, y, s)
    ensures Stale(e, activators, y, s)
  {
    hide Names;
  }

  lemma RestGrounds(w: World, e: Event)
    requires Papers(w.disk, w.writers) && Apart(w.activators) && Grounded(w.disk, w.activators)
    requires Next(w, e).Some? && (e.Begin? || e.Stop? || e.LoseReservation?)
    ensures var v := Next(w, e).value; Papers(v.disk, v.writers) && Apart(v.activators) && Grounded(v.disk, v.activators)
  {
    hide Exposed, WellNamed;
    var v := Next(w, e).value;
    assert forall s :: Anchored(w.disk, s) ==> Anchored(v.disk, s);
  }

  lemma RestCalm(w: World, e: Event)
    requires Inv(w) && Calm(w) && Next(w, e).Some? && (e.Begin? || e.Stop? || e.LoseReservation?)
    ensures Calm(Next(w, e).value)
  {
    hide Inv, Exposed, Vacant, ComponentsRight, Names;
    var v := Next(w, e).value;
    CalmParts(w);
    RestGrounds(w, e);
    hide Papers, Grounded, Apart;
    forall a | a in v.activators
      ensures Placed(v.disk, v.writers, v.activators[a]) && Checked(v.disk, v.writers, v.activators, v.activators[a])
    {
      if a in w.activators {
        var y := w.activators[a];
        assert Placed(w.disk, w.writers, y) && Checked(w.disk, w.writers, w.activators, y);
        hide Calm;
        CheckedSame(w.disk, v.disk, w.writers, w.activators, v.activators, y);
        PlacedSame(w.disk, v.disk, w.writers, y);
      }
    }
  }

  lemma CalmStep(w: World, e: Event)
    requires Inv(w) && Calm(w) && Next(w, e).Some? && Orderly(w, e)
    ensures Calm(Next(w, e).value)
  {
    hide Inv, Calm, Orderly, ActivationStep, ClientStep, MayLose;
    match e
    case Act(a, action) => ActivationCalm(w, a, action);
    case Client(c, use) => ClientCalm(w, c, use);
    case LoseDir(t) => LossCalm(w, t);
    case _ => RestCalm(w, e);
  }

  lemma {:induction false} CalmAlways(start: World, run: seq<Event>)
    requires Initial(start) && After(start, run).Some? && OrderlyRun(start, run)
    ensures Calm(After(start, run).value)
    decreases |run|
  {
    hide Next;
    if run != [] {
      var before, e := run[..|run| - 1], run[|run| - 1];
      AfterLastStep(start, run);
      CalmAlways(start, before);
      InvAlways(start, before);
      hide After, Initial, Inv, Calm, Orderly;
      CalmStep(After(start, before).value, e);
    }
  }

  /** The activation is about to remove the gate over a component that differs from its source. */
  ghost predicate Leaks(w: World, a: nat, s: Db)
  {
    && ActivationStep(w, a, DropGate).Some? && s in w.activators[a].request.members
    && var target := Component(w.activators[a].request, s);
       !(s in w.disk.content && target in w.disk.content && w.disk.content[target] == w.disk.content[s])
  }

  /** In an orderly run, an activation that is about to remove the gate of a destination leaves
      there, for every source, exactly what the source holds and has held since it was retired. */
  lemma NoLostWrite(start: World, run: seq<Event>, a: nat, s: Db)
    requires Initial(start) && After(start, run).Some? && OrderlyRun(start, run)
    requires var w := After(start, run).value; ActivationStep(w, a, DropGate).Some?
    requires s in After(start, run).value.activators[a].request.members
    ensures var w := After(start, run).value;
            var r := w.activators[a].request;
            && s in w.disk.content && Component(r, s) in w.disk.content
            && w.disk.content[Component(r, s)] == w.disk.content[s] == r.members[s].content
            && s in w.disk.retired && w.disk.retired[s] == r
            && forall c :: c in w.writers ==> w.writers[c].db != Component(r, s) && (Shares(w.writers[c]) ==> w.writers[c].db != s)
  {
    CalmAlways(start, run);
    InvAlways(start, run);
    var w := After(start, run).value;
    hide *;
    Stepped(w, a, DropGate);
    AtTheGate(w, a, w.activators[a], s);
    HandedOver(w, w.activators[a], s);
  }

  /** The component is what its source holds, and no writer is at either. */
  predicate Handed(w: World, r: Request, s: Db)
  {
    && ComponentRight(w.disk, r, s)
    && s in w.disk.content && w.disk.content[s] == r.members[s].content && s in w.disk.retired && w.disk.retired[s] == r
    && (forall c :: c in w.writers ==> w.writers[c].db != Component(r, s) && (Shares(w.writers[c]) ==> w.writers[c].db != s))
  }

  lemma HandedOver(w: World, x: Activator, s: Db)
    requires Handed(w, x.request, s)
    ensures var r := x.request;
            && s in r.members && s in w.disk.content && Component(r, s) in w.disk.content
            && w.disk.content[Component(r, s)] == w.disk.content[s] == r.members[s].content
            && s in w.disk.retired && w.disk.retired[s] == r
            && forall c :: c in w.writers ==> w.writers[c].db != Component(r, s) && (Shares(w.writers[c]) ==> w.writers[c].db != s)
  {
  }

  lemma AtTheGate(w: World, a: nat, x: Activator, s: Db)
    requires a in w.activators && w.activators[a] == x && s in x.request.members
    requires ActivationStep(w, a, DropGate).Some? && Inv(w) && Calm(w)
    ensures Handed(w, x.request, s)
  {
    hide Inv, Calm;
    assert x.phase.Ungating? && x.request.dest in w.disk.dirs;
    hide LocalStep, ActivationStep;
    SourceAtTheGate(w, a, x, s);
    PlacedOf(w, a);
    assert ComponentRight(w.disk, x.request, s) by { hide Exposed; }
    assert Names(x.request, Component(x.request, s));
  }

  lemma SourceAtTheGate(w: World, a: nat, x: Activator, s: Db)
    requires a in w.activators && w.activators[a] == x && s in x.request.members && x.phase.Ungating? && Inv(w)
    ensures s in w.disk.content && w.disk.content[s] == x.request.members[s].content
    ensures s in w.disk.retired && w.disk.retired[s] == x.request
    ensures forall c :: c in w.writers && Shares(w.writers[c]) ==> w.writers[c].db != s
  {
    assert LocalOk(w.disk, a, x);
    assert s in Holds(x);
    hide LocalOk;
  }
}
