/** A committed successor that is lost is not made again: which losses are harmless, and what
    the others lead to. */
module HandoffReplay {
  import opened HandoffProtocol
  import opened HandoffSafety
  import opened HandoffLaws

  // ---------------------------------------------------------------- careless losses

  /** Something in the directory has itself been handed over, so the directory is never lost. */
  predicate Pinned(d: Disk, t: Dir) { exists s :: s in d.retired && s.dir == t }

  /** The activation retries a committed request and is in the given phase at the directory. */
  predicate Retrying(w: World, a: nat, t: Dir)
  {
    a in w.activators && w.activators[a].request.dest == t && w.activators[a].request in w.history.committed
  }

  /** A destination is lost while a retry has passed the receipt check and not yet opened it, or a
      reservation is lost between the check for a lost one and the claim of a retry, and the
      directory can still be lost. */
  ghost predicate Careless(w: World, e: Event)
  {
    match e
    case LoseDir(d) => exists a :: Retrying(w, a, d) && w.activators[a].phase.Retiring?
    case LoseReservation(d) => !Pinned(w.disk, d) && exists a :: Retrying(w, a, d) && w.activators[a].phase.Reserving?
    case _ => false
  }

  ghost predicate CarefulRun(start: World, run: seq<Event>)
    decreases |run|
  {
    run == [] ||
    (var before := run[..|run| - 1];
     CarefulRun(start, before) && (After(start, before).Some? ==> !Careless(After(start, before).value, run[|run| - 1])))
  }

  /** The step makes the destination of a committed activation again, or goes on filling it. */
  predicate Recreates(w: World, e: Event)
  {
    && e.Act? && e.action.Open? && e.a in w.activators
    && w.activators[e.a].request in w.history.committed
    && var next := OpenDest(w.disk, e.a, w.activators[e.a]);
       next.Some? && (next.value.x.phase.Gating? || next.value.x.phase.Copying?)
  }

  // ---------------------------------------------------------------- the invariant

  predicate Filling(p: Phase) { p.Gating? || p.Announcing? || p.Copying? }

  /** Receipts lie in existing directories and name activations whose sources are retired. */
  ghost predicate ReceiptsRight(w: World)
  {
    && (forall d :: d in w.disk.receipts ==>
          d in w.disk.dirs && w.disk.receipts[d].dest == d && Retired(w.disk, w.disk.receipts[d]))
    && (forall r :: r in w.history.committed ==> Retired(w.disk, r))
  }

  /** Where an activation stands whose destination is already committed. */
  ghost predicate AfterCommit(w: World, x: Activator)
  {
    var d, t := w.disk, x.request.dest;
    && (x.phase.Reserving? ==> t in d.reservations || Pinned(d, t))
    && (x.phase.Retiring? ==> t in d.receipts || Pinned(d, t))
    && !Filling(x.phase)
  }

  ghost predicate Traced(w: World)
  {
    && ReceiptsRight(w)
    && (forall t :: t in w.disk.reservations ==> Durable(w, t))
    && (forall a :: a in w.activators && w.activators[a].request in w.history.committed ==> AfterCommit(w, w.activators[a]))
    && (forall a :: a in w.activators && Filling(w.activators[a].phase) ==>
          NotReceipted(w.disk, w.activators[a].request))
  }

  ghost predicate Settled(w: World) { Traced(w) && Documented(w) }

  /** Where a committed request is still pending, its receipt or a later one lies as well. */
  ghost predicate Documented(w: World)
  {
    && (forall s :: s in w.disk.content ==> s.dir in w.disk.dirs)
    && (forall t :: t in w.disk.pending && w.disk.pending[t] in w.history.committed ==> t in w.disk.receipts)
    && (forall t :: t in w.disk.pending ==> w.disk.pending[t].dest == t)
    && (forall a :: a in w.activators && w.activators[a].phase.Committing? ==>
          Receipted(w.disk, w.activators[a].request))
  }

  predicate Receipted(d: Disk, r: Request) { r.dest in d.pending && d.pending[r.dest] == r ==> r.dest in d.receipts }

  /** A reservation of a committed activation says so, unless the directory cannot be lost. */
  predicate Durable(w: World, t: Dir)
    requires t in w.disk.reservations
  {
    var v := w.disk.reservations[t];
    v.request in w.history.committed && v.request.dest == t ==> v.activated || Pinned(w.disk, t)
  }

  predicate NotReceipted(d: Disk, r: Request) { r.dest in d.receipts ==> d.receipts[r.dest] != r }

  lemma PinnedStays(d: Disk, e: Disk)
    requires d.retired.Keys <= e.retired.Keys
    ensures forall t :: Pinned(d, t) ==> Pinned(e, t)
  {
    forall t | Pinned(d, t) ensures Pinned(e, t) {
      var s :| s in d.retired && s.dir == t;
      assert s in e.retired;
    }
  }

  /** Two activations of one request never hold all its sources together. */
  lemma SameRequest(w: World, a: nat, b: nat)
    requires Inv(w) && a in w.activators && b in w.activators && a != b
    requires w.activators[a].request == w.activators[b].request && Leased(w.activators[a].phase)
    ensures !Leased(w.activators[b].phase)
  {
    hide Frozen, Retired, NoWriterOnRetired;
    var x, y := w.activators[a], w.activators[b];
    assert LocalOk(w.disk, a, x) && LocalOk(w.disk, b, y);
    var s :| s in x.request.members;
    assert s in Holds(x);
    assert Holds(x) !! Holds(y);
  }

  // ---------------------------------------------------------------- one activation's step

  /** The steps that decide nothing: they leave markers, receipts and reservations alone. */
  predicate Dull(action: Action)
  {
    !(action.Judge? || action.Reserve? || action.Retire? || action.Open? || action.WriteReceipt? || action.Commit?
      || action.Adopt?)
  }

  lemma DullStep(w: World, a: nat, action: Action)
    requires a in w.activators && Dull(action) && LocalStep(w, a, action).Some?
    ensures var next, d, x := LocalStep(w, a, action).value, w.disk, w.activators[a];
            && next.disk.retired == d.retired && next.disk.receipts == d.receipts
            && next.disk.reservations == d.reservations && next.disk.dirs == d.dirs
            && next.x.request == x.request && (Filling(next.x.phase) ==> Filling(x.phase))
            && !next.x.phase.Reserving? && !next.x.phase.Retiring?
            && Noted(w.history, action, d, x).committed == w.history.committed
  {
    hide LeasesOk, HeldBySome, SharedBySome, RetirementAllows, Continues, Acceptable;
  }

  lemma DullKeeps(w: World, a: nat, action: Action)
    requires Inv(w) && Settled(w) && Dull(action) && ActivationStep(w, a, action).Some?
    ensures Traced(ActivationStep(w, a, action).value)
  {
    hide Inv, LocalStep, Noted;
    DullStep(w, a, action);
    var v := ActivationStep(w, a, action).value;
    PinnedStays(w.disk, v.disk);
    SameReceipts(w, v);
    hide ReceiptsRight;
  }

  lemma RetiredGrows(d: Disk, e: Disk, r: Request)
    requires Retired(d, r) && forall s :: s in d.retired ==> s in e.retired && e.retired[s] == d.retired[s]
    ensures Retired(e, r)
  {
  }

  /** A source that is retired for its request shows that the reservation was lost. */
  lemma JudgeKeeps(w: World, a: nat)
    requires Inv(w) && Settled(w) && ActivationStep(w, a, Judge).Some?
    ensures Traced(ActivationStep(w, a, Judge).value)
  {
    hide Inv, ReceiptsRight;
    var x, v := w.activators[a], ActivationStep(w, a, Judge).value;
    PinnedStays(w.disk, v.disk);
    MembersExist(w, a);
    var s :| s in x.request.members;
    AllRetired(w, x.request);
    SameReceipts(w, v);
  }

  lemma MembersExist(w: World, a: nat)
    requires Inv(w) && a in w.activators
    ensures w.activators[a].request.members != map[]
  {
    assert LocalOk(w.disk, a, w.activators[a]);
  }

  lemma AllRetired(w: World, r: Request)
    requires ReceiptsRight(w)
    ensures r in w.history.committed ==> Retired(w.disk, r)
  {
  }

  lemma SameReceipts(w: World, v: World)
    requires ReceiptsRight(w) && v.history.committed == w.history.committed
    requires v.disk.receipts == w.disk.receipts && w.disk.dirs <= v.disk.dirs
    requires forall s :: s in w.disk.retired ==> s in v.disk.retired && v.disk.retired[s] == w.disk.retired[s]
    ensures ReceiptsRight(v)
  {
    hide Retired;
    forall r | Retired(w.disk, r) ensures Retired(v.disk, r) { RetiredGrows(w.disk, v.disk, r); }
  }

  lemma ReserveKeeps(w: World, a: nat)
    requires Inv(w) && Settled(w) && ActivationStep(w, a, Reserve).Some?
    ensures Traced(ActivationStep(w, a, Reserve).value)
  {
    hide Inv;
    var x, v := w.activators[a], ActivationStep(w, a, Reserve).value;
    PinnedStays(w.disk, v.disk);
    assert ReceiptsRight(v) by { SameReceipts(w, v); }
    hide ReceiptsRight;
    assert x.request in w.history.committed ==> AfterCommit(w, x);
    if x.request.dest in w.disk.reservations {
      assert Durable(w, x.request.dest);
    }
    forall t | t in v.disk.reservations ensures Durable(v, t) {
      assert t in w.disk.reservations ==> Durable(w, t);
    }
  }

  /** A directory with a retired source in it exists and is not empty, and where a committed request
      is still pending in it a receipt lies as well. */
  lemma PinnedIsFull(w: World, r: Request)
    requires Inv(w) && Documented(w) && Pinned(w.disk, r.dest) && r in w.history.committed
    ensures r.dest in w.disk.dirs && !Initializing(w.disk, r)
    ensures r.dest in w.disk.pending && w.disk.pending[r.dest] == r ==> r.dest in w.disk.receipts
  {
    var s :| s in w.disk.retired && s.dir == r.dest;
    assert Frozen(w.disk);
    assert s in w.disk.content;
  }

  lemma OpenKeeps(w: World, a: nat)
    requires Inv(w) && Settled(w) && ActivationStep(w, a, Open).Some?
    ensures Traced(ActivationStep(w, a, Open).value)
    ensures !Recreates(w, Act(a, Open))
  {
    hide *;
    OpenedOver(w, a);
    OpenedShape(w, a);
    OpenTraced(w, a, w.activators[a], ActivationStep(w, a, Open).value);
  }

  lemma OpenedShape(w: World, a: nat)
    requires ActivationStep(w, a, Open).Some?
    ensures var v := ActivationStep(w, a, Open).value;
            && a in w.activators && a in v.activators && v.activators == w.activators[a := v.activators[a]]
            && v.disk == w.disk.(dirs := v.disk.dirs) && v.history.committed == w.history.committed
            && v.activators[a].request == w.activators[a].request && PastRetire(v.activators[a].phase)
  {
    hide OpenDest;
    OpenShape(w.disk, a, w.activators[a]);
  }

  lemma OpenTraced(w: World, a: nat, x: Activator, v: World)
    requires a in w.activators && w.activators[a] == x && a in v.activators && v.activators == w.activators[a := v.activators[a]]
    requires v.disk == w.disk.(dirs := v.disk.dirs) && v.history.committed == w.history.committed && w.disk.dirs <= v.disk.dirs
    requires v.activators[a].request == x.request && PastRetire(v.activators[a].phase)
    requires Filling(v.activators[a].phase) ==> x.request !in w.history.committed && NotReceipted(w.disk, x.request)
    requires Settled(w)
    ensures Traced(v)
  {
    hide Retired, Pinned, Documented;
    PinnedStays(w.disk, v.disk);
    assert ReceiptsRight(v) by { SameReceipts(w, v); }
    hide ReceiptsRight;
    forall t | t in v.disk.reservations ensures Durable(v, t) { SameDurable(w, v, t); }
  }

  /** Opening leads neither a committed request back to filling its directory, nor any request to
      filling one in which its receipt lies. */
  lemma OpenedOver(w: World, a: nat)
    requires Inv(w) && Settled(w) && ActivationStep(w, a, Open).Some?
    ensures var x, v := w.activators[a], ActivationStep(w, a, Open).value;
            && w.disk.dirs <= v.disk.dirs && PastRetire(v.activators[a].phase)
            && (Filling(v.activators[a].phase) ==> x.request !in w.history.committed && NotReceipted(w.disk, x.request))
    ensures !Recreates(w, Act(a, Open))
  {
    hide Inv, LeasesOk, ComponentsExist, Initializing, Acceptable, Retired;
    var x := w.activators[a];
    assert x.request.dest in w.disk.receipts ==> x.request.dest in w.disk.dirs;
    hide ReceiptsRight;
    assert x.request in w.history.committed ==> AfterCommit(w, x);
    if x.request in w.history.committed && Pinned(w.disk, x.request.dest) {
      PinnedIsFull(w, x.request);
    }
  }

  lemma RetireKeeps(w: World, a: nat, s: Db)
    requires Inv(w) && Settled(w) && ActivationStep(w, a, Retire(s)).Some?
    ensures Traced(ActivationStep(w, a, Retire(s)).value)
  {
    hide *;
    RetiredShape(w, a, s);
    RetiredTraced(w, a, w.activators[a], ActivationStep(w, a, Retire(s)).value);
  }

  /** Only markers are added, and the activation stays in its phase. */
  ghost predicate Marks(w: World, a: nat, x: Activator, v: World)
  {
    && a in v.activators && v.activators == w.activators[a := x.(done := v.activators[a].done)]
    && v.disk == w.disk.(retired := v.disk.retired) && v.history.committed == w.history.committed
    && (forall s :: s in w.disk.retired ==> s in v.disk.retired && v.disk.retired[s] == w.disk.retired[s])
  }

  lemma RetiredShape(w: World, a: nat, s: Db)
    requires ActivationStep(w, a, Retire(s)).Some?
    ensures a in w.activators && Marks(w, a, w.activators[a], ActivationStep(w, a, Retire(s)).value)
  {
  }

  lemma RetiredTraced(w: World, a: nat, x: Activator, v: World)
    requires a in w.activators && w.activators[a] == x && Marks(w, a, x, v) && Settled(w)
    ensures Traced(v)
  {
    hide Retired, Pinned, Documented;
    PinnedStays(w.disk, v.disk);
    SameReceipts(w, v);
    hide ReceiptsRight;
    assert forall b :: b in v.activators ==>
      b in w.activators && v.activators[b].phase == w.activators[b].phase && v.activators[b].request == w.activators[b].request;
  }

  lemma ReceiptKeeps(w: World, a: nat)
    requires Inv(w) && Settled(w) && ActivationStep(w, a, WriteReceipt).Some?
    ensures Traced(ActivationStep(w, a, WriteReceipt).value)
  {
    hide Inv, LeasesOk;
    var x, v := w.activators[a], ActivationStep(w, a, WriteReceipt).value;
    PinnedStays(w.disk, v.disk);
    SeenRetired(w, a);
    OthersUnleased(w, a);
    ReceiptPublished(w, v, x.request);
    hide ReceiptsRight, Retired;
  }

  lemma OthersUnleased(w: World, a: nat)
    requires Inv(w) && a in w.activators && Leased(w.activators[a].phase)
    ensures forall b :: b in w.activators && b != a && w.activators[b].request == w.activators[a].request ==>
              !Leased(w.activators[b].phase)
  {
    hide Inv;
    forall b | b in w.activators && b != a && w.activators[b].request == w.activators[a].request
      ensures !Leased(w.activators[b].phase)
    {
      SameRequest(w, a, b);
    }
  }

  /** A new receipt or commitment of a request whose sources are retired. */
  lemma ReceiptPublished(w: World, v: World, r: Request)
    requires ReceiptsRight(w) && Retired(w.disk, r) && v.disk.retired == w.disk.retired && v.disk.dirs == w.disk.dirs
    requires v.disk.receipts == w.disk.receipts
      || (v.disk.receipts == w.disk.receipts[r.dest := r] && r.dest in w.disk.dirs)
    requires v.history.committed <= w.history.committed + {r}
    ensures ReceiptsRight(v)
  {
    hide Retired;
    forall q | Retired(w.disk, q) ensures Retired(v.disk, q) { RetiredGrows(w.disk, v.disk, q); }
  }

  lemma CommitKeeps(w: World, a: nat)
    requires Inv(w) && Settled(w) && ActivationStep(w, a, Commit).Some?
    ensures Traced(ActivationStep(w, a, Commit).value)
  {
    hide *;
    CommitShape(w, a);
    SeenRetired(w, a);
    OthersUnleased(w, a);
    CommitTraced(w, a, w.activators[a], ActivationStep(w, a, Commit).value);
  }

  /** What a commit changes, and that it makes its request and no other a committed one. */
  ghost predicate Commits(w: World, a: nat, x: Activator, v: World)
  {
    && x.phase.Committing? && v.activators == w.activators[a := x.(phase := Clearing)]
    && v.disk == w.disk.(reservations := w.disk.reservations[x.request.dest := Reservation(x.request, true)])
    && v.history.committed == w.history.committed + {x.request}
  }

  lemma CommitShape(w: World, a: nat)
    requires ActivationStep(w, a, Commit).Some?
    ensures a in w.activators && PastRetire(w.activators[a].phase) && Leased(w.activators[a].phase)
    ensures Commits(w, a, w.activators[a], ActivationStep(w, a, Commit).value)
  {
  }

  lemma CommitTraced(w: World, a: nat, x: Activator, v: World)
    requires a in w.activators && w.activators[a] == x && Commits(w, a, x, v) && Retired(w.disk, x.request) && Settled(w)
    requires forall b :: b in w.activators && b != a && w.activators[b].request == x.request ==> !Leased(w.activators[b].phase)
    ensures Traced(v)
  {
    hide Retired, Pinned;
    ReceiptPublished(w, v, x.request);
    PinnedStays(w.disk, v.disk);
    hide ReceiptsRight;
    forall t | t in v.disk.reservations ensures Durable(v, t) {
      assert t in w.disk.reservations ==> Durable(w, t);
    }
    hide Durable;
    forall b | b in v.activators && v.activators[b].request in v.history.committed ensures AfterCommit(v, v.activators[b]) {
      assert b != a && w.activators[b].request in w.history.committed ==> AfterCommit(w, w.activators[b]);
    }
  }

  lemma AdoptKeeps(w: World, a: nat)
    requires Inv(w) && Settled(w) && ActivationStep(w, a, Adopt).Some?
    ensures Traced(ActivationStep(w, a, Adopt).value)
  {
    hide Inv, LeasesOk;
    var x, v := w.activators[a], ActivationStep(w, a, Adopt).value;
    PinnedStays(w.disk, v.disk);
    var t := x.request.dest;
    var q := w.disk.receipts[t];
    assert q.dest == t && Retired(w.disk, q);
    ReceiptPublished(w, v, q);
    hide ReceiptsRight, Retired;
    forall u | u in v.disk.reservations ensures Durable(v, u) {
      assert u in w.disk.reservations ==> Durable(w, u);
    }
    forall b | b in v.activators && v.activators[b].request in v.history.committed ensures AfterCommit(v, v.activators[b]) {
      assert Filling(w.activators[b].phase) ==> NotReceipted(w.disk, w.activators[b].request);
    }
  }

  // ---------------------------------------------------------------- receipts of pending requests

  /** The steps that neither announce nor commit. */
  lemma PlainPapers(w: World, a: nat, action: Action)
    requires a in w.activators && !action.Announce? && LocalStep(w, a, action).Some?
    ensures var next, d, x := LocalStep(w, a, action).value, w.disk, w.activators[a];
            && (forall s :: s in next.disk.content && s !in d.content ==> s.dir in next.disk.dirs)
            && d.dirs <= next.disk.dirs && d.receipts.Keys <= next.disk.receipts.Keys
            && (forall t :: t in next.disk.pending ==> t in d.pending && next.disk.pending[t] == d.pending[t])
            && next.x.request == x.request
            && (next.x.phase.Committing? ==> x.phase.Committing? || x.request.dest in next.disk.receipts)
  {
    hide LeasesOk, HeldBySome, SharedBySome, RetirementAllows, Continues, Acceptable, Initializing, ComponentsExist;
  }

  /** A request is committed only while it is in no destination pending without a receipt. */
  lemma NewlyCommitted(w: World, a: nat, action: Action, r: Request)
    requires ReceiptsRight(w) && Documented(w) && ActivationStep(w, a, action).Some? && r !in w.history.committed
    requires r in ActivationStep(w, a, action).value.history.committed
    ensures Receipted(w.disk, r)
  {
    hide ReceiptsRight, Retired, LeasesOk;
    assert action.Commit? || action.Adopt? by { hide LocalStep, Documented; }
    if action.Adopt? {
      var q := w.disk.receipts[w.activators[a].request.dest];
      assert q.dest in w.disk.receipts by { ReceiptHere(w, w.activators[a].request.dest); }
    }
  }

  lemma ReceiptHere(w: World, t: Dir)
    requires ReceiptsRight(w) && t in w.disk.receipts
    ensures w.disk.receipts[t].dest == t
  {
  }

  lemma PlainKeepsDocumented(w: World, a: nat, action: Action)
    requires Settled(w) && ActivationStep(w, a, action).Some? && !action.Announce?
    ensures Documented(ActivationStep(w, a, action).value)
  {
    var v := ActivationStep(w, a, action).value;
    PlainPapers(w, a, action);
    hide LocalStep, ReceiptsRight, Durable, AfterCommit;
    forall t | t in v.disk.pending && v.disk.pending[t] in v.history.committed ensures t in v.disk.receipts {
      if v.disk.pending[t] !in w.history.committed {
        NewlyCommitted(w, a, action, v.disk.pending[t]);
      }
    }
    hide Noted;
    forall b | b in v.activators && v.activators[b].phase.Committing? ensures Receipted(v.disk, v.activators[b].request) {
      assert w.activators[b].phase.Committing? ==> Receipted(w.disk, w.activators[b].request);
    }
  }

  lemma AnnounceKeepsDocumented(w: World, a: nat)
    requires Inv(w) && Settled(w) && ActivationStep(w, a, Announce).Some?
    ensures Documented(ActivationStep(w, a, Announce).value)
  {
    hide Inv, ReceiptsRight, Durable;
    var x, v := w.activators[a], ActivationStep(w, a, Announce).value;
    assert x.request !in w.history.committed by { assert x.request in w.history.committed ==> AfterCommit(w, x); }
    OthersUnleased(w, a);
    forall b | b in v.activators && v.activators[b].phase.Committing? ensures Receipted(v.disk, v.activators[b].request) {
      assert b != a && Receipted(w.disk, w.activators[b].request);
    }
  }

  lemma ActivationKeepsDocumented(w: World, a: nat, action: Action)
    requires Inv(w) && Settled(w) && ActivationStep(w, a, action).Some?
    ensures Documented(ActivationStep(w, a, action).value)
  {
    hide *;
    if action.Announce? {
      AnnounceKeepsDocumented(w, a);
    } else {
      PlainKeepsDocumented(w, a, action);
    }
  }

  lemma ClientKeepsDocumented(w: World, c: nat, use: Use)
    requires Documented(w) && ClientStep(w, c, use).Some?
    ensures Documented(ClientStep(w, c, use).value)
  {
    hide HeldBySome;
    var v := ClientStep(w, c, use).value;
    assert v.disk == w.disk.(content := v.disk.content) && v.disk.content.Keys == w.disk.content.Keys;
  }

  lemma RestKeepsDocumented(w: World, e: Event)
    requires Documented(w) && Next(w, e).Some? && !e.Act? && !e.Client?
    ensures Documented(Next(w, e).value)
  {
    hide MayLose, WellNamed;
    var v := Next(w, e).value;
    forall b | b in v.activators && v.activators[b].phase.Committing? ensures Receipted(v.disk, v.activators[b].request) {
      assert Receipted(w.disk, w.activators[b].request);
    }
  }

  lemma ActivationKeepsTraced(w: World, a: nat, action: Action)
    requires Inv(w) && Settled(w) && ActivationStep(w, a, action).Some?
    ensures Traced(ActivationStep(w, a, action).value)
    ensures !Recreates(w, Act(a, action))
  {
    hide Inv, Settled, Traced, ActivationStep;
    match action
    case Judge => JudgeKeeps(w, a);
    case Reserve => ReserveKeeps(w, a);
    case Retire(s) => RetireKeeps(w, a, s);
    case Open => OpenKeeps(w, a);
    case WriteReceipt => ReceiptKeeps(w, a);
    case Commit => CommitKeeps(w, a);
    case Adopt => AdoptKeeps(w, a);
    case _ => DullKeeps(w, a, action);
  }

  lemma ActivationKeepsSettled(w: World, a: nat, action: Action)
    requires Inv(w) && Settled(w) && ActivationStep(w, a, action).Some?
    ensures Settled(ActivationStep(w, a, action).value)
    ensures !Recreates(w, Act(a, action))
  {
    hide Inv, Traced, Documented, ActivationStep, Recreates;
    ActivationKeepsTraced(w, a, action);
    ActivationKeepsDocumented(w, a, action);
  }

  // ---------------------------------------------------------------- every careful step

  lemma OtherKeepsSettled(w: World, e: Event)
    requires Settled(w) && !Careless(w, e) && Next(w, e).Some? && !e.Act?
    ensures Settled(Next(w, e).value)
  {
    hide Traced, Documented, Careless, ClientStep;
    match e
    case Client(c, use) =>
      ClientKeepsSettled(w, c, use);
      ClientKeepsDocumented(w, c, use);
    case _ =>
      hide Next;
      RestKeepsSettled(w, e);
      RestKeepsDocumented(w, e);
  }

  lemma ClientKeepsSettled(w: World, c: nat, use: Use)
    requires Settled(w) && ClientStep(w, c, use).Some?
    ensures Traced(ClientStep(w, c, use).value)
  {
    var v := ClientStep(w, c, use).value;
    PinnedStays(w.disk, v.disk);
    hide HeldBySome;
    ReceiptsLost(w, v);
    hide ReceiptsRight;
    assert v.disk.reservations == w.disk.reservations;
    forall t | t in v.disk.reservations ensures Durable(v, t) {
      assert Durable(w, t);
    }
  }

  lemma RestKeepsSettled(w: World, e: Event)
    requires Settled(w) && !Careless(w, e) && Next(w, e).Some? && !e.Act? && !e.Client?
    ensures Traced(Next(w, e).value)
  {
    var v := Next(w, e).value;
    hide ReceiptsRight, Retired, MayLose, WithoutDir, Durable, Pinned;
    if e.LoseDir? {
      LostDirKeeps(w, e.d);
    } else if e.LoseReservation? {
      LostReservationKeeps(w, e.d);
    } else {
      ReceiptsLost(w, v);
      forall t | t in v.disk.reservations ensures Durable(v, t) { SameDurable(w, v, t); }
    }
  }

  lemma SameDurable(w: World, v: World, t: Dir)
    requires t in w.disk.reservations && Durable(w, t) && w.disk.retired == v.disk.retired
    requires t in v.disk.reservations && v.disk.reservations[t] == w.disk.reservations[t]
    requires v.history.committed == w.history.committed
    ensures Durable(v, t)
  {
    PinnedStays(w.disk, v.disk);
    hide Pinned;
  }

  /** No retry of a committed request was waiting for the receipt. */
  lemma LostDirKeeps(w: World, d: Dir)
    requires Traced(w) && !Careless(w, LoseDir(d)) && Next(w, LoseDir(d)).Some?
    ensures Traced(Next(w, LoseDir(d)).value)
  {
    var v := Next(w, LoseDir(d)).value;
    hide MayLose, Retired, Pinned;
    PinnedStays(w.disk, v.disk);
    ReceiptsLost(w, v);
    hide ReceiptsRight;
    forall t | t in v.disk.reservations ensures Durable(v, t) { SameDurable(w, v, t); }
    hide Durable;
    forall a | a in v.activators && v.activators[a].request in v.history.committed ensures AfterCommit(v, v.activators[a]) {
      assert AfterCommit(w, w.activators[a]);
      assert Retrying(w, a, w.activators[a].request.dest);
    }
  }

  lemma LostReservationKeeps(w: World, d: Dir)
    requires Traced(w) && !Careless(w, LoseReservation(d)) && Next(w, LoseReservation(d)).Some?
    ensures Traced(Next(w, LoseReservation(d)).value)
  {
    var v := Next(w, LoseReservation(d)).value;
    hide Retired, Pinned;
    PinnedStays(w.disk, v.disk);
    ReceiptsLost(w, v);
    hide ReceiptsRight;
    forall t | t in v.disk.reservations ensures Durable(v, t) { SameDurable(w, v, t); }
    hide Durable;
    forall a | a in v.activators && v.activators[a].request in v.history.committed ensures AfterCommit(v, v.activators[a]) {
      assert AfterCommit(w, w.activators[a]);
      assert Retrying(w, a, w.activators[a].request.dest);
    }
  }

  /** Receipts may vanish together with their directories. */
  lemma ReceiptsLost(w: World, v: World)
    requires ReceiptsRight(w) && v.disk.retired == w.disk.retired && v.history.committed == w.history.committed
    requires forall d :: d in v.disk.receipts ==>
      d in w.disk.receipts && v.disk.receipts[d] == w.disk.receipts[d] && (d in w.disk.dirs ==> d in v.disk.dirs)
    ensures ReceiptsRight(v)
  {
    hide Retired;
    forall r | Retired(w.disk, r) ensures Retired(v.disk, r) { RetiredGrows(w.disk, v.disk, r); }
  }

  lemma {:induction false} SettledAlways(start: World, run: seq<Event>)
    requires Initial(start) && After(start, run).Some? && CarefulRun(start, run)
    ensures Settled(After(start, run).value)
    decreases |run|
  {
    hide ActivationStep;
    if run != [] {
      var before, e := run[..|run| - 1], run[|run| - 1];
      AfterLastStep(start, run);
      SettledAlways(start, before);
      InvAlways(start, before);
      hide After, Initial, Inv, Settled, Careless;
      var w := After(start, before).value;
      if e.Act? {
        ActivationKeepsSettled(w, e.a, e.action);
      } else {
        OtherKeepsSettled(w, e);
      }
    }
  }

  /** As long as no loss was careless, no committed destination is ever made again, however
      often it is lost and retried. */
  lemma NeverReplayed(start: World, run: seq<Event>, e: Event)
    requires Initial(start) && After(start, run).Some? && CarefulRun(start, run)
    ensures !Recreates(After(start, run).value, e)
  {
    SettledAlways(start, run);
    InvAlways(start, run);
    hide *;
    OpensNothingCommitted(After(start, run).value, e);
  }

  lemma OpensNothingCommitted(w: World, e: Event)
    requires Inv(w) && Settled(w)
    ensures !Recreates(w, e)
  {
    hide Settled, Inv;
    if e.Act? && e.action.Open? && ActivationStep(w, e.a, Open).Some? {
      OpenKeeps(w, e.a);
    }
  }
}
