/** Runs from an initial world in which a handoff goes wrong because its conditions are not met,
    and why no weaker condition on losses would do. */
module HandoffExamples {
  import opened StrictJson
  import opened HandoffProtocol
  import opened HandoffSafety
  import opened HandoffContents
  import opened HandoffLeaks
  import opened HandoffLosses
  import opened HandoffReplay
  import opened HandoffRuns
  import opened HandoffStretches

  // ---------------------------------------------------------------- one small handoff

  const SOURCE := Db("old", "a")
  const TARGET := Db("new", "a")
  const CLAIM := Request("op", "new", map[SOURCE := Member("a", "x")])
  const BEFORE := Disk({"old"}, map[SOURCE := "x"], map[], map[], {}, map[], map[], map[])
  const START := World(BEFORE, map[], map[], History({}, {}, {}, {}, {}, {}))

  predicate DestAcceptable(d: Disk) { ("new" in d.reservations ==> Continues(d, CLAIM)) && Acceptable(d, CLAIM) }

  /** Only agent `a` runs, and it has verified the source. */
  predicate HasVerified(w: World, a: nat)
  {
    && w.activators.Keys == {a} && w.activators[a].request == CLAIM && w.activators[a].phase.Verifying?
    && w.activators[a].done == {SOURCE} && w.activators[a].leases.Keys == {SOURCE}
    && LeaseOk(w.disk, a, w.activators[a], SOURCE)
  }

  lemma Leasing(w: World, a: nat) returns (run: seq<Event>, v: World)
    requires w.activators == map[] && w.writers == map[] && SOURCE in w.disk.content && w.disk.content[SOURCE] == "x"
    requires "old" !in w.disk.gates && DestAcceptable(w.disk)
    requires SOURCE in w.disk.retired ==> w.disk.retired[SOURCE] == CLAIM
    ensures Lossless(run) && After(w, run) == Some(v) && v.writers == map[] && v.history == w.history
    ensures v.disk == w.disk.(records := v.disk.records) && HasVerified(v, a)
  {
    hide Acceptable, Continues, After;
    assert CLAIM.members.Keys == {SOURCE};
    var e1, e2, e3 := Begin(a, CLAIM), Act(a, Preflight), Act(a, Acquire(SOURCE));
    var w1 := Next(w, e1).value;
    var w2 := Next(w1, e2).value;
    assert w2.activators.Keys == {a};
    assert !HeldBySome(w2, SOURCE) && !SharedBySome(w2, SOURCE);
    var w3 := Next(w2, e3).value;
    assert w3.activators[a] == Activator(CLAIM, Locked(SOURCE), map[], {});
    Three(w, e1, e2, e3, w1, w2, w3);
    var q;
    q, v := Leased3(w3, a);
    hide Next;
    Joined(w, [e1, e2, e3], q);
    run := [e1, e2, e3] + q;
  }

  lemma Leased3(w: World, a: nat) returns (run: seq<Event>, v: World)
    requires w.activators.Keys == {a} && w.activators[a] == Activator(CLAIM, Locked(SOURCE), map[], {})
    requires SOURCE in w.disk.content && w.disk.content[SOURCE] == "x" && "old" !in w.disk.gates
    requires SOURCE in w.disk.retired ==> w.disk.retired[SOURCE] == CLAIM
    ensures Lossless(run) && After(w, run) == Some(v) && v.writers == w.writers && v.history == w.history
    ensures v.disk == w.disk.(records := v.disk.records) && HasVerified(v, a)
  {
    hide After;
    assert CLAIM.members.Keys == {SOURCE};
    var e1, e2, e3 := Act(a, ReadFence), Act(a, PublishLease), Act(a, Verify(SOURCE));
    var w1 := Next(w, e1).value;
    var n := FenceOf(w.disk, SOURCE);
    assert w1.activators[a] == Activator(CLAIM, Fenced(SOURCE, n), map[], {});
    var w2 := Next(w1, e2).value;
    assert w2.activators[a].leases.Keys == {SOURCE};
    assert w2.activators[a].phase.Verifying?;
    v := Next(w2, e3).value;
    assert v.activators[a].done == {SOURCE};
    Three(w, e1, e2, e3, w1, w2, v);
    run := [e1, e2, e3];
  }

  predicate At(w: World, a: nat, p: Phase, done: set<Db>)
  {
    && w.activators.Keys == {a} && w.activators[a].request == CLAIM
    && w.activators[a].phase == p && w.activators[a].done == done && w.activators[a].leases.Keys == {SOURCE}
    && LeaseOk(w.disk, a, w.activators[a], SOURCE)
  }

  /** From the verified source to the retired one. */
  lemma Retirement(w: World, a: nat) returns (run: seq<Event>, v: World)
    requires HasVerified(w, a) && "new" !in w.disk.reservations && SOURCE !in w.disk.retired
    ensures Lossless(run) && After(w, run) == Some(v) && v.writers == w.writers && At(v, a, Retiring, {SOURCE})
    ensures v.disk == w.disk.(retired := v.disk.retired, reservations := v.disk.reservations)
    ensures v.disk.retired == w.disk.retired[SOURCE := CLAIM]
    ensures v.disk.reservations == w.disk.reservations["new" := Reservation(CLAIM, false)]
    ensures v.history == w.history.(reserved := v.history.reserved)
  {
    hide After, At, HasVerified, Next;
    var w1, w2 := Taking(w, a);
    v := MarkerPut(w2, a);
    Three(w, Act(a, Judge), Act(a, Reserve), Act(a, Retire(SOURCE)), w1, w2, v);
    run := [Act(a, Judge), Act(a, Reserve), Act(a, Retire(SOURCE))];
  }

  lemma MarkerPut(w: World, a: nat) returns (v: World)
    requires At(w, a, Retiring, {}) && SOURCE !in w.disk.retired
    ensures Next(w, Act(a, Retire(SOURCE))) == Some(v) && v.writers == w.writers && At(v, a, Retiring, {SOURCE})
    ensures v.disk == w.disk.(retired := w.disk.retired[SOURCE := CLAIM]) && v.history == w.history
  {
    hide HeldBySome, SharedBySome, MayLose, ComponentsExist, Initializing, Acceptable, Continues;
    v := Next(w, Act(a, Retire(SOURCE))).value;
    assert v.activators[a].done == {SOURCE};
  }

  lemma Taking(w: World, a: nat) returns (w1: World, w2: World)
    requires HasVerified(w, a) && "new" !in w.disk.reservations && SOURCE !in w.disk.retired
    ensures Next(w, Act(a, Judge)) == Some(w1) && Next(w1, Act(a, Reserve)) == Some(w2)
    ensures w2.writers == w.writers && At(w2, a, Retiring, {})
    ensures w2.disk == w.disk.(reservations := w.disk.reservations["new" := Reservation(CLAIM, false)])
    ensures w2.history == w.history.(reserved := w2.history.reserved)
  {
    assert CLAIM.members.Keys == {SOURCE};
    w1 := Next(w, Act(a, Judge)).value;
    w2 := Next(w1, Act(a, Reserve)).value;
  }

  lemma Opened(w: World, a: nat) returns (v: World)
    requires At(w, a, Retiring, {SOURCE}) && "new" !in w.disk.dirs
    ensures Next(w, Act(a, Open)) == Some(v) && v.writers == w.writers && At(v, a, Gating, {})
    ensures v.disk == w.disk.(dirs := w.disk.dirs + {"new"}) && v.history == w.history
  {
    hide HeldBySome, SharedBySome, MayLose, ComponentsExist, Initializing, Acceptable, Continues;
    assert CLAIM.members.Keys == {SOURCE};
    assert LeasesOk(w.disk, a, w.activators[a]);
    hide LeasesOk;
    v := Next(w, Act(a, Open)).value;
  }

  lemma Raised(w: World, a: nat) returns (v: World)
    requires At(w, a, Gating, {}) && "new" in w.disk.dirs
    ensures Next(w, Act(a, RaiseGate)) == Some(v) && v.writers == w.writers && At(v, a, Announcing, {})
    ensures v.disk == w.disk.(gates := w.disk.gates + {"new"}) && v.history == w.history
  {
    hide HeldBySome, SharedBySome, MayLose, ComponentsExist, Initializing, Acceptable, Continues;
    v := Next(w, Act(a, RaiseGate)).value;
  }

  lemma Announced(w: World, a: nat) returns (v: World)
    requires At(w, a, Announcing, {}) && "new" in w.disk.dirs && "new" !in w.disk.pending
    ensures Next(w, Act(a, Announce)) == Some(v) && v.writers == w.writers && At(v, a, Copying, {})
    ensures v.disk == w.disk.(pending := w.disk.pending["new" := CLAIM]) && v.history == w.history
  {
    hide HeldBySome, SharedBySome, MayLose, ComponentsExist, Initializing, Acceptable, Continues;
    v := Next(w, Act(a, Announce)).value;
  }

  /** From the retired source to a directory with gate and pending record. */
  lemma Opening(w: World, a: nat) returns (run: seq<Event>, v: World)
    requires At(w, a, Retiring, {SOURCE}) && "new" !in w.disk.dirs && "new" !in w.disk.pending
    ensures Lossless(run) && After(w, run) == Some(v) && v.writers == w.writers && v.history == w.history && At(v, a, Copying, {})
    ensures v.disk == w.disk.(dirs := w.disk.dirs + {"new"}, gates := w.disk.gates + {"new"},
                              pending := w.disk.pending["new" := CLAIM])
  {
    hide After, Next, At;
    var w1 := Opened(w, a);
    var w2 := Raised(w1, a);
    v := Announced(w2, a);
    Three(w, Act(a, Open), Act(a, RaiseGate), Act(a, Announce), w1, w2, v);
    run := [Act(a, Open), Act(a, RaiseGate), Act(a, Announce)];
  }

  /** The component is copied. */
  lemma Copied(w: World, a: nat) returns (v: World)
    requires At(w, a, Copying, {}) && "new" in w.disk.dirs && TARGET !in w.disk.content
    ensures Next(w, Act(a, Copy(SOURCE))) == Some(v) && v.writers == w.writers && At(v, a, Copying, {SOURCE})
    ensures v.disk == w.disk.(content := w.disk.content[TARGET := "x"])
    ensures v.history == w.history.(placed := v.history.placed)
  {
    assert CLAIM.members.Keys == {SOURCE};
    assert LeasesOk(w.disk, a, w.activators[a]);
    v := Next(w, Act(a, Copy(SOURCE))).value;
    assert v.activators[a].done == {SOURCE};
  }

  lemma Receipted(w: World, a: nat) returns (v: World)
    requires At(w, a, Copying, {SOURCE}) && "new" in w.disk.dirs
    ensures Next(w, Act(a, WriteReceipt)) == Some(v) && v.writers == w.writers && At(v, a, Committing, {SOURCE})
    ensures v.disk == w.disk.(receipts := w.disk.receipts["new" := CLAIM]) && v.history == w.history
  {
    hide HeldBySome, SharedBySome, MayLose, ComponentsExist, Initializing, Acceptable, Continues;
    assert CLAIM.members.Keys == {SOURCE};
    assert LeasesOk(w.disk, a, w.activators[a]);
    hide LeasesOk;
    v := Next(w, Act(a, WriteReceipt)).value;
  }

  lemma Reserved(w: World, a: nat) returns (v: World)
    requires At(w, a, Committing, {SOURCE})
    ensures Next(w, Act(a, Commit)) == Some(v) && v.writers == w.writers && At(v, a, Clearing, {SOURCE})
    ensures v.disk == w.disk.(reservations := w.disk.reservations["new" := Reservation(CLAIM, true)])
    ensures v.history == w.history.(committed := w.history.committed + {CLAIM})
  {
    hide HeldBySome, SharedBySome, MayLose, ComponentsExist, Initializing, Acceptable, Continues;
    v := Next(w, Act(a, Commit)).value;
  }

  lemma Cleared(w: World, a: nat) returns (v: World)
    requires At(w, a, Clearing, {SOURCE})
    ensures Next(w, Act(a, ClearPending)) == Some(v) && v.writers == w.writers && At(v, a, Ungating, {SOURCE})
    ensures v.disk == w.disk.(pending := w.disk.pending - {"new"}) && v.history == w.history
  {
    hide HeldBySome, SharedBySome, MayLose, ComponentsExist, Initializing, Acceptable, Continues;
    v := Next(w, Act(a, ClearPending)).value;
  }

  /** From the copied component to the last step before the gate falls. */
  lemma Commitment(w: World, a: nat) returns (run: seq<Event>, v: World)
    requires At(w, a, Copying, {SOURCE}) && "new" in w.disk.dirs
    ensures Lossless(run) && After(w, run) == Some(v) && v.writers == w.writers && At(v, a, Ungating, {SOURCE})
    ensures v.disk == w.disk.(receipts := w.disk.receipts["new" := CLAIM], pending := w.disk.pending - {"new"},
                              reservations := w.disk.reservations["new" := Reservation(CLAIM, true)])
    ensures v.history == w.history.(committed := w.history.committed + {CLAIM})
  {
    hide After, Next, At;
    var w1 := Receipted(w, a);
    var w2 := Reserved(w1, a);
    v := Cleared(w2, a);
    Three(w, Act(a, WriteReceipt), Act(a, Commit), Act(a, ClearPending), w1, w2, v);
    run := [Act(a, WriteReceipt), Act(a, Commit), Act(a, ClearPending)];
  }

  lemma StartIsInitial()
    ensures Initial(START)
  {
  }

  /** A handoff up to the copied component, with a writer that knocked before the directory. */
  lemma KnockedEarly() returns (run: seq<Event>, v: World)
    ensures After(START, run) == Some(v) && At(v, 0, Copying, {SOURCE})
    ensures 7 in v.writers && v.writers[7] == Writer(TARGET, Knocked)
    ensures v.disk.content == map[SOURCE := "x", TARGET := "x"] && TARGET !in v.disk.retired && "new" in v.disk.dirs
  {
    hide After;
    var p1, w1 := Leasing(START, 0);
    var p2, w2 := Retirement(w1, 0);
    var knock := Client(7, Knock(TARGET));
    var w3 := w2.(writers := w2.writers[7 := Writer(TARGET, Knocked)]);
    assert Next(w2, knock) == Some(w3);
    hide Next;
    var p4, w4 := Opening(w3, 0);
    v := Copied(w4, 0);
    One(w2, knock, w3);
    One(w4, Act(0, Copy(SOURCE)), v);
    run := Chain(START, p1, w1, p2, w2, [knock], w3);
    run := Chain(START, run, w3, p4, w4, [Act(0, Copy(SOURCE))], v);
  }

  lemma Chain(w: World, p: seq<Event>, w1: World, q: seq<Event>, w2: World, r: seq<Event>, w3: World)
    returns (run: seq<Event>)
    requires After(w, p) == Some(w1) && After(w1, q) == Some(w2) && After(w2, r) == Some(w3)
    ensures After(w, run) == Some(w3) && run == p + q + r
  {
    hide After, Next;
    Joined(w, p, q);
    Joined(w, p + q, r);
    run := p + q + r;
  }

  /** A writer that knocked before the gate went up writes to the copy behind it: the gate then
      falls over contents that no source ever held. */
  lemma EarlyWriter() returns (run: seq<Event>)
    ensures Initial(START) && After(START, run).Some?
    ensures var w := After(START, run).value;
            && ActivationStep(w, 0, DropGate).Some?
            && SOURCE in w.disk.content && TARGET in w.disk.content
            && w.disk.content[TARGET] != w.disk.content[SOURCE]
  {
    hide After, Next;
    StartIsInitial();
    var p1, w1 := KnockedEarly();
    var p2, w2 := Scribble(w1, 7);
    var p3, w3 := Commitment(w2, 0);
    run := Chain(START, p1, w1, p2, w2, p3, w3);
  }

  /** The early writer enters, connects and writes. */
  lemma Scribble(w: World, c: nat) returns (run: seq<Event>, v: World)
    requires c in w.writers && w.writers[c] == Writer(TARGET, Knocked) && At(w, 0, Copying, {SOURCE})
    requires TARGET in w.disk.content && TARGET !in w.disk.retired && "new" in w.disk.dirs
    ensures After(w, run) == Some(v) && v.activators == w.activators && v.history == w.history
    ensures v.disk == w.disk.(content := w.disk.content[TARGET := "y"])
  {
    hide After;
    assert CLAIM.members.Keys == {SOURCE};
    var e1, e2, e3 := Client(c, Enter), Client(c, Connect), Client(c, Write("y"));
    assert !HeldBySome(w, TARGET);
    var w1 := Next(w, e1).value;
    var w2 := Next(w1, e2).value;
    v := Next(w2, e3).value;
    Three(w, e1, e2, e3, w1, w2, v);
    run := [e1, e2, e3];
  }

  /** The gate falls and the process ends. */
  lemma Ending(w: World, a: nat) returns (run: seq<Event>, v: World)
    requires At(w, a, Ungating, {SOURCE}) && "new" in w.disk.dirs
    ensures Lossless(run) && After(w, run) == Some(v) && v.writers == w.writers && v.activators == map[]
    ensures v.disk == w.disk.(gates := w.disk.gates - {"new"}) && v.history.committed == w.history.committed
  {
    hide After, HeldBySome, SharedBySome, MayLose;
    var e1, e2 := Act(a, DropGate), Stop(a);
    var w1 := Next(w, e1).value;
    v := Next(w1, e2).value;
    hide Next;
    One(w, e1, w1);
    One(w1, e2, v);
    Joined(w, [e1], [e2]);
    run := [e1] + [e2];
  }

  /** A retry finds the committed reservation and its receipt. */
  lemma Rejoining(w: World, a: nat) returns (run: seq<Event>, v: World)
    requires HasVerified(w, a) && "new" in w.disk.reservations && Continues(w.disk, CLAIM)
    ensures Lossless(run) && After(w, run) == Some(v) && v.writers == w.writers && At(v, a, Retiring, {})
    ensures v.disk == w.disk && v.history.committed == w.history.committed
  {
    hide After, HeldBySome, SharedBySome, MayLose;
    assert CLAIM.members.Keys == {SOURCE};
    var e1, e2 := Act(a, Judge), Act(a, Reserve);
    var w1 := Next(w, e1).value;
    v := Next(w1, e2).value;
    hide Next;
    One(w, e1, w1);
    One(w1, e2, v);
    Joined(w, [e1], [e2]);
    run := [e1] + [e2];
  }

  /** A complete handoff, seen when its gate has fallen and its process is gone. */
  lemma Complete() returns (run: seq<Event>, v: World)
    ensures Lossless(run) && After(START, run) == Some(v)
    ensures v.activators == map[] && v.writers == map[] && CLAIM in v.history.committed
    ensures v.disk.dirs == {"old", "new"} && v.disk.content == map[SOURCE := "x", TARGET := "x"] && v.disk.gates == {}
    ensures v.disk.receipts == map["new" := CLAIM] && v.disk.reservations == map["new" := Reservation(CLAIM, true)]
    ensures v.disk.retired == map[SOURCE := CLAIM]
  {
    hide After, Next, HasVerified, At;
    var p1, w1 := Leasing(START, 0);
    var p2, w2 := Retirement(w1, 0);
    var p3, w3 := Opening(w2, 0);
    var w4 := Copied(w3, 0);
    var p5, w5 := Commitment(w4, 0);
    var p6;
    p6, v := Ending(w5, 0);
    One(w3, Act(0, Copy(SOURCE)), w4);
    run := Chain(START, p1, w1, p2, w2, p3, w3);
    run := Chain(START, run, w3, [Act(0, Copy(SOURCE))], w4, p5, w5);
    Joined(START, run, p6);
    run := run + p6;
  }

  /** The same handoff, retried by agent 1 and interrupted by the loss of the successor: the
      directory of the committed activation is made a second time. */
  lemma CommittedSuccessorMadeAgain() returns (run: seq<Event>, more: seq<Event>)
    ensures Initial(START) && CarefulRun(START, run)
    ensures var all := run + ([LoseDir("new")] + more);
            && After(START, all).Some? && Recreates(After(START, all).value, Act(1, Open))
  {
    hide After, Next, HasVerified, At, Initial, Inv, Settled, Careless, CarefulRun, Recreates;
    StartIsInitial();
    var p1, w1 := Complete();
    assert DestAcceptable(w1.disk);
    var p2, w2 := Leasing(w1, 1);
    assert Continues(w2.disk, CLAIM);
    var p3, w3 := Rejoining(w2, 1);
    run := Chain(START, p1, w1, p2, w2, p3, w3);
    LosslessIsCareful(START, run);
    InvAlways(START, run);
    SettledAlways(START, run);
    assert ReceiptsRight(w3) by { FromSettled(w3); }
    var w4 := ReadyToLose(w3);
    var w5;
    more, w5 := CarelessLossReplays(w3, 1, w4);
    One(w3, LoseDir("new"), w4);
    Joined(w3, [LoseDir("new")], more);
    Joined(START, run, [LoseDir("new")] + more);
  }

  lemma FromSettled(w: World)
    requires Settled(w)
    ensures ReceiptsRight(w)
  {
  }

  lemma ReadyToLose(w: World) returns (v: World)
    requires At(w, 1, Retiring, {}) && w.writers == map[] && w.disk.retired == map[SOURCE := CLAIM] && Inv(w)
    ensures 1 in w.activators && w.activators[1].request == CLAIM && w.activators[1].phase.Retiring?
    ensures LeasesOk(w.disk, 1, w.activators[1]) && Next(w, LoseDir("new")) == Some(v)
  {
    hide Inv;
    assert CLAIM.members.Keys == {SOURCE};
    v := Next(w, LoseDir("new")).value;
  }

  // ---------------------------------------------------------------- a lost reservation

  const OTHER := Db("old", "b")
  const RIVAL := Request("op2", "new", map[OTHER := Member("b", "z")])
  const TWO := World(Disk({"old"}, map[SOURCE := "x", OTHER := "z"], map[], map[], {}, map[], map[], map[]),
                     map[], map[], History({}, {}, {}, {}, {}, {}))

  /** A request with the single source `s`. */
  predicate Single(r: Request, s: Db) { r.members.Keys == {s} }

  /** Nothing keeps a request from starting: its source is free and its destination unknown. */
  predicate Startable(w: World, a: nat, r: Request, s: Db)
  {
    && Single(r, s) && a !in w.activators && r.dest !in w.disk.reservations && r.dest !in w.disk.dirs
    && s in w.disk.content && w.disk.content[s] == r.members[s].content
    && s.dir !in w.disk.gates && s !in w.disk.retired && !HeldBySome(w, s) && !SharedBySome(w, s)
  }

  /** The activation has found its source as recorded and is about to reserve. */
  predicate Judged(w: World, a: nat, r: Request, s: Db)
  {
    && a in w.activators && w.activators[a].request == r && w.activators[a].phase.Reserving? && w.activators[a].done == {}
    && w.activators[a].leases.Keys == {s} && LeaseOk(w.disk, a, w.activators[a], s)
  }

  lemma Fencing(w: World, a: nat, r: Request, s: Db) returns (run: seq<Event>, v: World)
    requires Startable(w, a, r, s)
    ensures Leads(w, run, v) && v.disk == w.disk && v.writers == w.writers
    ensures v.activators == w.activators[a := Activator(r, Fenced(s, FenceOf(w.disk, s)), map[], {})]
  {
    hide Acceptable, Continues, After, Leads, OrderlyRun;
    var w2 := w.(activators := w.activators[a := Activator(r, Locking, map[], {})]);
    var p := Entering(w, a, r, s, w2);
    var w3 := w.(activators := w.activators[a := Activator(r, Locked(s), map[], {})]);
    assert w2.activators[a := Activator(r, Locked(s), map[], {})] == w3.activators;
    assert Next(w2, Act(a, Acquire(s))) == Some(w3) by {
      assert !HeldBySome(w2, s) && !SharedBySome(w2, s) by { NotHeld(w, w2, a, Activator(r, Locking, map[], {}), s); }
      hide HeldBySome, SharedBySome;
    }
    hide HeldBySome, SharedBySome;
    v := w.(activators := w.activators[a := Activator(r, Fenced(s, FenceOf(w.disk, s)), map[], {})]);
    assert w3.activators[a := v.activators[a]] == v.activators;
    assert Next(w3, Act(a, ReadFence)) == Some(v);
    hide Next;
    Leads2(w2, Act(a, Acquire(s)), w3, Act(a, ReadFence), v);
    LeadsOn(w, p, w2, [Act(a, Acquire(s)), Act(a, ReadFence)], v);
    run := p + [Act(a, Acquire(s)), Act(a, ReadFence)];
  }

  lemma Entering(w: World, a: nat, r: Request, s: Db, v: World) returns (run: seq<Event>)
    requires Startable(w, a, r, s) && v == w.(activators := w.activators[a := Activator(r, Locking, map[], {})])
    ensures Leads(w, run, v)
  {
    hide Acceptable, Continues, After, Leads, OrderlyRun, HeldBySome, SharedBySome;
    var w1 := w.(activators := w.activators[a := Activator(r, Preparing, map[], {})]);
    assert Next(w, Begin(a, r)) == Some(w1);
    assert w1.activators[a := Activator(r, Locking, map[], {})] == v.activators;
    Unknown(w.disk, r);
    assert Next(w1, Act(a, Preflight)) == Some(v);
    hide Next;
    Leads2(w, Begin(a, r), w1, Act(a, Preflight), v);
    run := [Begin(a, r), Act(a, Preflight)];
  }

  lemma Unknown(d: Disk, r: Request)
    requires r.dest !in d.dirs
    ensures Acceptable(d, r)
  {
  }

  lemma NotHeld(w: World, v: World, a: nat, x: Activator, s: Db)
    requires !HeldBySome(w, s) && !SharedBySome(w, s) && v.writers == w.writers
    requires v.activators == w.activators[a := x] && Holds(x) == {}
    ensures !HeldBySome(v, s) && !SharedBySome(v, s)
  {
  }

  lemma Judging(w: World, a: nat, r: Request, s: Db) returns (run: seq<Event>, v: World)
    requires Startable(w, a, r, s)
    ensures Leads(w, run, v) && v.disk == w.disk.(records := v.disk.records) && v.writers == w.writers && Judged(v, a, r, s)
    ensures v.activators == w.activators[a := v.activators[a]] && v.disk.records == w.disk.records[s := v.disk.records[s]]
  {
    hide After, Leads, OrderlyRun;
    var p, u := Fencing(w, a, r, s);
    hide HeldBySome, SharedBySome, Acceptable, Continues;
    var n := FenceOf(w.disk, s) + 1;
    assert {s} == r.members.Keys;
    var w1 := Next(u, Act(a, PublishLease)).value;
    assert w1.activators[a] == Activator(r, Verifying, map[s := n], {});
    var w2 := Next(w1, Act(a, Verify(s))).value;
    assert w2.activators[a] == Activator(r, Verifying, map[s := n], {s});
    v := Next(w2, Act(a, Judge)).value;
    assert v.activators[a] == Activator(r, Reserving, map[s := n], {});
    Leads3(u, Act(a, PublishLease), w1, Act(a, Verify(s)), w2, Act(a, Judge), v);
    hide Next;
    LeadsOn(w, p, u, [Act(a, PublishLease), Act(a, Verify(s)), Act(a, Judge)], v);
    run := p + [Act(a, PublishLease), Act(a, Verify(s)), Act(a, Judge)];
  }

  /** The destination is claimed and the source retired. */
  predicate Claimed(w: World, a: nat, r: Request, s: Db)
  {
    && a in w.activators && w.activators[a].request == r && w.activators[a].phase.Retiring? && w.activators[a].done == {s}
    && LeaseOk(w.disk, a, w.activators[a], s)
    && r.dest in w.disk.reservations && w.disk.reservations[r.dest] == Reservation(r, false)
  }

  lemma Claiming(w: World, a: nat, r: Request, s: Db) returns (run: seq<Event>, v: World)
    requires Judged(w, a, r, s) && Single(r, s) && r.dest !in w.disk.reservations && s !in w.disk.retired
    ensures Leads(w, run, v) && Claimed(v, a, r, s) && v.writers == w.writers && v.activators == w.activators[a := v.activators[a]]
    ensures v.disk == w.disk.(retired := w.disk.retired[s := r], reservations := w.disk.reservations[r.dest := Reservation(r, false)])
  {
    hide After, Leads, OrderlyRun, HeldBySome, SharedBySome, Acceptable, Continues;
    assert {s} == r.members.Keys;
    var u := Next(w, Act(a, Reserve)).value;
    assert u.activators[a].phase.Retiring? && u.activators[a].done == {};
    v := Next(u, Act(a, Retire(s))).value;
    assert v.activators[a].done == {s};
    Leads2(w, Act(a, Reserve), u, Act(a, Retire(s)), v);
    run := [Act(a, Reserve), Act(a, Retire(s))];
  }

  /** Two activations of different sources meet in one destination, because its reservation was
      lost while the first was about to enter it: the second opens it as well, and orderly steps
      lead from there to a gate that falls over the wrong contents. */
  lemma LostReservationLeaks() returns (run: seq<Event>, more: seq<Event>, a: nat, s: Db)
    ensures Initial(TWO) && After(TWO, run + more).Some? && LoseReservation("new") in run
    ensures Leaks(After(TWO, run + more).value, a, s)
  {
    hide Leads, After, OrderlyRun, Next, Unsafe, Leaks, Judged, Claimed;
    TwoIsInitial();
    assert Single(RIVAL, OTHER) && Single(CLAIM, SOURCE);
    var p1, w1 := Judging(TWO, 1, RIVAL, OTHER);
    RivalWaits(w1);
    var p2, w2 := Judging(w1, 0, CLAIM, SOURCE);
    LeadsOn(TWO, p1, w1, p2, w2);
    var p3, w3 := Claiming(w2, 0, CLAIM, SOURCE);
    LeadsOn(TWO, p1 + p2, w2, p3, w3);
    assert Judged(w3, 1, RIVAL, OTHER) by { StillJudged(w1, w3); }
    var p4, w4 := EnteredAndLost(w3);
    LeadsOn(TWO, p1 + p2 + p3, w3, p4, w4);
    var p5, w5 := Claiming(w4, 1, RIVAL, OTHER);
    run := p1 + p2 + p3 + p4 + p5;
    LeadsOn(TWO, p1 + p2 + p3 + p4, w4, p5, w5);
    more, a, s := RivalLeaks(run, w5);
  }

  lemma TwoIsInitial()
    ensures Initial(TWO) && Startable(TWO, 1, RIVAL, OTHER)
  {
  }

  lemma RivalWaits(w: World)
    requires Judged(w, 1, RIVAL, OTHER) && w.activators == map[1 := w.activators[1]] && w.writers == map[]
    requires w.disk == TWO.disk.(records := w.disk.records)
    ensures Startable(w, 0, CLAIM, SOURCE)
  {
  }

  lemma StillJudged(w: World, v: World)
    requires Judged(w, 1, RIVAL, OTHER) && 1 in v.activators && v.activators[1] == w.activators[1]
    requires v.disk.gates == w.disk.gates && OTHER in v.disk.records && v.disk.records[OTHER] == w.disk.records[OTHER]
    ensures Judged(v, 1, RIVAL, OTHER)
  {
  }

  /** The first activation makes the directory; then its reservation is lost. */
  lemma EnteredAndLost(w: World) returns (run: seq<Event>, v: World)
    requires Claimed(w, 0, CLAIM, SOURCE) && Judged(w, 1, RIVAL, OTHER) && w.activators.Keys == {0, 1}
    requires w.disk.dirs == {"old"} && w.disk.reservations.Keys == {"new"} && OTHER !in w.disk.retired
    ensures Leads(w, run, v) && LoseReservation("new") in run && Judged(v, 1, RIVAL, OTHER) && v.activators.Keys == {0, 1}
    ensures v.activators[0].request == CLAIM && v.activators[0].phase.Gating?
    ensures v.disk == w.disk.(dirs := {"old", "new"}, reservations := map[])
  {
    hide After, Leads, OrderlyRun, HeldBySome, SharedBySome, Acceptable, Continues, ComponentsExist, Initializing;
    assert CLAIM.members.Keys == {SOURCE};
    assert LeasesOk(w.disk, 0, w.activators[0]);
    hide LeasesOk;
    var u := Next(w, Act(0, Open)).value;
    assert !Contested(w.activators, 0);
    LeadsOne(w, Act(0, Open), u);
    v := Next(u, LoseReservation("new")).value;
    LeadsMild(u, LoseReservation("new"), v);
    LeadsOn(w, [Act(0, Open)], u, [LoseReservation("new")], v);
    run := [Act(0, Open)] + [LoseReservation("new")];
  }

  lemma RivalLeaks(run: seq<Event>, w: World) returns (more: seq<Event>, a: nat, s: Db)
    requires Initial(TWO) && Leads(TWO, run, w) && Claimed(w, 1, RIVAL, OTHER) && w.activators.Keys == {0, 1}
    requires w.activators[0].request == CLAIM && w.activators[0].phase.Gating?
    requires w.disk.dirs == {"old", "new"} && w.disk.receipts == map[] && w.disk.pending == map[]
    requires w.disk.content == TWO.disk.content && w.disk.records.Keys <= {SOURCE, OTHER}
    ensures After(TWO, run + more).Some? && Leaks(After(TWO, run + more).value, a, s)
  {
    hide *;
    var v := Reopened(w);
    ContestedNow(w);
    LeadsParts(TWO, run, w);
    OrderlyIsExact(TWO, run, Act(1, Open));
    var q, u;
    q, u, a, s := Leaking(v);
    One(w, Act(1, Open), v);
    Joined(TWO, run, [Act(1, Open)]);
    Joined(TWO, run + [Act(1, Open)], q);
    more := [Act(1, Open)] + q;
    assert run + more == run + [Act(1, Open)] + q;
  }

  lemma LeadsParts(w: World, run: seq<Event>, v: World)
    requires Leads(w, run, v)
    ensures After(w, run) == Some(v) && OrderlyRun(w, run)
  {
  }

  lemma Leaking(w: World) returns (run: seq<Event>, v: World, a: nat, s: Db)
    requires Unsafe(w)
    ensures After(w, run) == Some(v) && Leaks(v, a, s)
  {
    hide Leaks;
    run, v, a, s :| Leads(w, run, v) && Leaks(v, a, s);
  }

  lemma Reopened(w: World) returns (v: World)
    requires Claimed(w, 1, RIVAL, OTHER)
    requires w.disk.dirs == {"old", "new"} && w.disk.receipts == map[] && w.disk.pending == map[]
    requires w.disk.content == TWO.disk.content && w.disk.records.Keys <= {SOURCE, OTHER}
    ensures Next(w, Act(1, Open)) == Some(v)
  {
    hide HeldBySome, SharedBySome, Acceptable, Continues, ComponentsExist;
    assert RIVAL.members.Keys == {OTHER};
    assert LeasesOk(w.disk, 1, w.activators[1]);
    hide LeasesOk;
    v := Next(w, Act(1, Open)).value;
  }

  lemma ContestedNow(w: World)
    requires w.activators.Keys == {0, 1} && w.activators[0].request == CLAIM && w.activators[0].phase.Gating?
    requires Claimed(w, 1, RIVAL, OTHER) && w.disk.receipts == map[] && w.disk.pending == map[]
    ensures !Orderly(w, Act(1, Open))
  {
    assert Contested(w.activators, 1) by { assert 0 in w.activators; }
  }
}
