/** A disposal that stops after its mark is lost for good as soon as anything is committed on its
    source: the Run stays in deleting in every continuation. */
module DisposalAbandoned {
  import opened StrictJson
  import opened DisposalProtocol
  import opened DisposalLaws
  import opened DisposalResults

  // ---------------------------------------------------------------- the mutation clock

  predicate StoresGrow(w: World, v: World)
  {
    forall path :: path in w.stores ==> path in v.stores && w.stores[path].mutation <= v.stores[path].mutation
  }

  lemma ClockStep(w: World, e: Event)
    requires Next(w, e).Some?
    ensures StoresGrow(w, Next(w, e).value)
  {
    hide Replays, Admitted, RegistryFree, StoreFree, Incoming, Open, SameRun;
  }

  /** The mutation clock of a source never goes back. */
  lemma {:induction false} ClockNeverFalls(start: World, run: seq<Event>, more: seq<Event>)
    requires After(start, run).Some? && After(start, run + more).Some?
    ensures StoresGrow(After(start, run).value, After(start, run + more).value)
    decreases |more|
  {
    hide Next;
    if more == [] {
      assert run + more == run;
    } else {
      var k := |more| - 1;
      assert (run + more)[..|run + more| - 1] == run + more[..k];
      Stepped(start, run + more);
      ClockNeverFalls(start, run, more[..k]);
      ClockStep(After(start, run + more[..k]).value, more[k]);
    }
  }

  /** A plan was made when the clock of its source stood at its token. */
  predicate PlanDated(w: World, plan: Plan)
  {
    plan.path in w.stores && plan.token.mutation <= w.stores[plan.path].mutation
  }

  ghost predicate Dated(w: World)
  {
    && (forall p :: p in w.processes && w.processes[p].Disposer? ==> PlanDated(w, w.processes[p].plan))
    && (forall o :: o in w.registry.runs && w.registry.runs[o].deletion.Some? ==>
          PlanDated(w, w.registry.runs[o].deletion.value.plan))
  }

  lemma DisposeDated(w: World, p: nat, plan: Plan, operation: string)
    requires Inv(w) && Dated(w) && StartDisposal(w, p, plan, operation).Some? && !Replays(w.registry, plan, operation)
    ensures PlanDated(w, plan)
  {
    var o := plan.origin.value;
    assert Agree(w, o) by { hide Admitted; AgreePath(w, o); }
    hide Inv, Dated, Replays, RegistryFree, StoreFree, Incoming, UniqueOrigin;
    if w.registry.runs[o].deletion.Some? { DatedOf(w, o); }
  }

  lemma DatedOf(w: World, o: Origin)
    requires Dated(w) && o in w.registry.runs && w.registry.runs[o].deletion.Some?
    ensures PlanDated(w, w.registry.runs[o].deletion.value.plan)
  {
    hide PlanDated;
  }

  /** Where disposals come from. */
  lemma ProcessOrigins(w: World, e: Event)
    requires Next(w, e).Some?
    ensures var v := Next(w, e).value;
            forall p :: p in v.processes && v.processes[p].Disposer? ==>
              || (p in w.processes && w.processes[p].Disposer? && v.processes[p].plan == w.processes[p].plan
                  && v.processes[p].operation == w.processes[p].operation)
              || (e.Dispose? && p == e.p && v.processes[p].plan == e.plan && v.processes[p].operation == e.operation
                  && !Replays(w.registry, e.plan, e.operation))
  {
    hide Admitted, RegistryFree, StoreFree, Incoming, Open, SameRun, Replays;
  }

  /** And where deletion records come from. */
  lemma DeletionOrigins(w: World, e: Event)
    requires Next(w, e).Some?
    ensures var v := Next(w, e).value;
            forall o :: o in v.registry.runs && v.registry.runs[o].deletion.Some? ==>
              || (o in w.registry.runs && w.registry.runs[o].deletion == v.registry.runs[o].deletion)
              || (e.Mark? && e.p in w.processes && w.processes[e.p].Disposer?
                  && v.registry.runs[o].deletion.value.plan == w.processes[e.p].plan)
  {
    hide Admitted, RegistryFree, StoreFree, Incoming, SameRun, Replays;
  }

  lemma DatedStep(w: World, e: Event)
    requires Inv(w) && Dated(w) && Next(w, e).Some?
    ensures Dated(Next(w, e).value)
  {
    hide Inv, Dated, Next, Replays;
    ProcessOrigins(w, e);
    DeletionOrigins(w, e);
    ClockStep(w, e);
    if e.Dispose? && !Replays(w.registry, e.plan, e.operation) { DisposalDated(w, e); }
    StillDated(w, e, Next(w, e).value);
  }

  lemma DisposalDated(w: World, e: Event)
    requires Inv(w) && Dated(w) && Next(w, e).Some? && e.Dispose? && !Replays(w.registry, e.plan, e.operation)
    ensures PlanDated(w, e.plan)
  {
    hide Inv, Dated, StartDisposal, Replays;
    DisposeDated(w, e.p, e.plan, e.operation);
  }

  lemma StillDated(w: World, e: Event, v: World)
    requires Dated(w) && StoresGrow(w, v)
    requires forall p :: p in v.processes && v.processes[p].Disposer? ==>
      || (p in w.processes && w.processes[p].Disposer? && v.processes[p].plan == w.processes[p].plan)
      || PlanDated(w, v.processes[p].plan)
    requires forall o :: o in v.registry.runs && v.registry.runs[o].deletion.Some? ==>
      || (o in w.registry.runs && w.registry.runs[o].deletion == v.registry.runs[o].deletion)
      || (e.Mark? && e.p in w.processes && w.processes[e.p].Disposer?
          && v.registry.runs[o].deletion.value.plan == w.processes[e.p].plan)
    ensures Dated(v)
  {
  }

  lemma {:induction false} DatedAlways(start: World, run: seq<Event>)
    requires Initial(start) && After(start, run).Some?
    ensures Dated(After(start, run).value)
    decreases |run|
  {
    hide Next;
    if run != [] {
      DatedAlways(start, run[..|run| - 1]);
      InvAlways(start, run[..|run| - 1]);
      Stepped(start, run);
      hide After, Initial, Inv, Dated;
      DatedStep(After(start, run[..|run| - 1]).value, run[|run| - 1]);
    }
  }

  // ---------------------------------------------------------------- left behind

  predicate InFlight(w: World, o: Origin)
  {
    exists p :: p in w.processes && w.processes[p].Disposer? && w.processes[p].plan.origin == Some(o)
  }

  /** The mark of this operation and plan is there and so are the rows, no disposal of the Run is
      under way, and the clock of the source has left the token of the plan. */
  ghost predicate Abandoned(w: World, o: Origin, operation: string, plan: Plan)
  {
    && o in w.registry.runs && w.registry.runs[o].hotPath in w.stores
    && StageOf(w, o) == Doomed && OwnerOf(w, o) == Some(Deletion(operation, plan)) && !InFlight(w, o)
    && plan.path == w.registry.runs[o].hotPath && w.stores[plan.path].mutation != plan.token.mutation
  }

  lemma NoCommit(w: World, e: Event, o: Origin)
    requires !InFlight(w, o)
    ensures !CommitsFor(w, e, o)
  {
  }

  /** The operation and plan that own the Run are refused, and so is every other. */
  lemma StillRefused(w: World, p: nat, other: Plan, otherOperation: string, o: Origin, operation: string, plan: Plan)
    requires Abandoned(w, o, operation, plan) && Agree(w, o) && other.origin == Some(o)
    ensures StartDisposal(w, p, other, otherOperation).None?
  {
    hide UniqueOrigin, RowBlockers, OriginBlockers, RegistryFree, StoreFree;
  }

  lemma AbandonedStep(w: World, e: Event, o: Origin, operation: string, plan: Plan)
    requires Inv(w) && Dated(w) && Abandoned(w, o, operation, plan) && Next(w, e).Some?
    ensures Abandoned(Next(w, e).value, o, operation, plan)
  {
    var v := Next(w, e).value;
    NoCommit(w, e, o);
    AgreePath(w, o);
    PairMoves(w, e, o);
    ClockStep(w, e);
    ProcessOrigins(w, e);
    DatedOf(w, o);
    assert e.Dispose? ==> e.plan.origin != Some(o) by {
      if e.Dispose? && e.plan.origin == Some(o) {
        hide Inv, Dated, StartDisposal, Abandoned;
        StillRefused(w, e.p, e.plan, e.operation, o, operation, plan);
      }
    }
    hide Inv, Dated, Next;
  }

  /** From the moment a marked Run is left behind like this, it stays in deleting for ever,
      whoever tries to go on with its disposal. */
  lemma {:induction false} AbandonedForEver(
    start: World, run: seq<Event>, more: seq<Event>, o: Origin, operation: string, plan: Plan)
    requires Initial(start) && After(start, run).Some? && After(start, run + more).Some?
    requires Abandoned(After(start, run).value, o, operation, plan)
    ensures Abandoned(After(start, run + more).value, o, operation, plan)
    decreases |more|
  {
    hide Next, Abandoned;
    if more == [] {
      assert run + more == run;
    } else {
      var k := |more| - 1;
      assert (run + more)[..|run + more| - 1] == run + more[..k];
      Stepped(start, run + more);
      AbandonedForEver(start, run, more[..k], o, operation, plan);
      InvAlways(start, run + more[..k]);
      DatedAlways(start, run + more[..k]);
      hide After, Initial, Inv, Dated;
      AbandonedStep(After(start, run + more[..k]).value, more[k], o, operation, plan);
    }
  }

  /** A stop just after the mark and one commit on the source leave a Run behind like this,
      whichever Run the commit is about. */
  lemma StopAndChangeAbandon(w: World, p: nat, o: Origin, run: string, row: Row, records: nat)
    requires Inv(w) && Dated(w) && p in w.processes && w.processes[p].Disposer? && w.processes[p].phase.Marked?
    requires w.processes[p].plan.origin == Some(o)
    requires w.processes[p].plan.path in w.stores && run !in w.stores[w.processes[p].plan.path].tombstones
    ensures var d := w.processes[p];
            var v := After(w, [Stop(p), Change(d.plan.path, run, row, records)]);
            v.Some? && Abandoned(v.value, o, d.operation, d.plan)
  {
    var d := w.processes[p];
    hide Inv, Dated;
    MarkedOk(w, p, o);
    hide LocksExclusive;
    forall q | q in w.processes && q != p && w.processes[q].Disposer? ensures w.processes[q].plan.origin != Some(o) {
      OneDisposal(w, p, q);
    }
    Leftover(w, p, o, run, row, records);
  }

  lemma Leftover(w: World, p: nat, o: Origin, run: string, row: Row, records: nat)
    requires p in w.processes && w.processes[p].Disposer? && w.processes[p].phase.Marked?
    requires w.processes[p].plan.origin == Some(o) && o in w.registry.runs
    requires ProcessOk(w, w.processes[p]) && LocksExclusive(w) && PlanDated(w, w.processes[p].plan)
    requires run !in w.stores[w.processes[p].plan.path].tombstones
    requires forall q :: q in w.processes && q != p && w.processes[q].Disposer? ==> w.processes[q].plan.origin != Some(o)
    ensures var d := w.processes[p];
            var v := After(w, [Stop(p), Change(d.plan.path, run, row, records)]);
            v.Some? && Abandoned(v.value, o, d.operation, d.plan)
  {
    var d := w.processes[p];
    var u := w.(processes := w.processes - {p});
    assert StoreFree(u, d.plan.path);
    hide LocksExclusive;
    var v := ChangeRun(u, d.plan.path, run, row, records).value;
    hide StoreFree;
    TwoSteps(w, Stop(p), u, Change(d.plan.path, run, row, records), v);
    hide After;
  }

  lemma MarkedOk(w: World, p: nat, o: Origin)
    requires Inv(w) && Dated(w) && p in w.processes && w.processes[p].Disposer? && w.processes[p].plan.origin == Some(o)
    ensures ProcessOk(w, w.processes[p]) && LocksExclusive(w) && PlanDated(w, w.processes[p].plan)
    ensures o in w.registry.runs && Agree(w, o)
  {
    hide LocksExclusive, PlanDated, ReferencesAlive, Agree, TombstonesOwned, IdentitiesUnique;
    assert ProcessOk(w, w.processes[p]);
  }

  lemma TwoSteps(w: World, e1: Event, u: World, e2: Event, v: World)
    requires Next(w, e1) == Some(u) && Next(u, e2) == Some(v)
    ensures After(w, [e1, e2]) == Some(v)
  {
    hide Next;
    OneStep(w, e1);
    OneStep(u, e2);
    JoinedRuns(w, [e1], [e2]);
    assert [e1] + [e2] == [e1, e2];
  }

  // ---------------------------------------------------------------- one small run

  const RUN := Origin("s", "r", "h")
  const SOURCE := Store("s", 5, map["r" := Row(1, "succeeded")], map[], map[])
  const EMPTY := World(Registry(0, false, map[], {}), map["db" := SOURCE], map[])
  const RECORD := Record(Active, "db", None, None, None)
  const REGISTERED := Registry(2, true, map[RUN := RECORD], {})
  const INTENT := Plan("db", "r", Some(Row(1, "succeeded")), Some(RUN), Token("s", 5), 2, true, {})

  lemma Registered() returns (run: seq<Event>)
    ensures Initial(EMPTY) && After(EMPTY, run) == Some(EMPTY.(registry := REGISTERED))
  {
    var w1 := EMPTY.(processes := map[0 := Registrar("db", RUN)]);
    assert Next(EMPTY, Look(0, "db", "r", "h")) == Some(w1);
    var w2 := EMPTY.(registry := Registry(1, false, map[RUN := RECORD], {}));
    assert w1.processes - {0} == map[];
    assert Next(w1, Register(0)) == Some(w2);
    var w3 := EMPTY.(registry := REGISTERED);
    assert Next(w2, CloseScope) == Some(w3);
    hide Next;
    TwoSteps(EMPTY, Look(0, "db", "r", "h"), w1, Register(0), w2);
    OneStep(w2, CloseScope);
    JoinedRuns(EMPTY, [Look(0, "db", "r", "h"), Register(0)], [CloseScope]);
    run := [Look(0, "db", "r", "h"), Register(0)] + [CloseScope];
  }

  lemma IntentIsPlan()
    ensures BuildPlan(SOURCE, "db", "r", REGISTERED) == INTENT
  {
    assert OriginsOf(REGISTERED, "s", "r") == {RUN};
    Unique(REGISTERED, RUN);
    assert !Incoming(REGISTERED, RUN);
  }

  /** A Run is registered, its scope closed, its disposal planned and marked; the process stops, and
      some other Run of the same source makes progress. The Run is then in deleting for ever. */
  lemma MarkedAndLeft() returns (run: seq<Event>)
    ensures Initial(EMPTY) && After(EMPTY, run).Some? && Abandoned(After(EMPTY, run).value, RUN, "op", INTENT)
  {
    hide After, Initial, Abandoned, Dated, Inv;
    var p := Registered();
    var w := EMPTY.(registry := REGISTERED);
    IntentIsPlan();
    hide BuildPlan;
    var w1 := w.(processes := map[1 := Disposer(INTENT, "op", Ready)]);
    assert Next(w, Dispose(1, INTENT, "op")) == Some(w1);
    var w2 := Next(w1, Mark(1)).value;
    assert 1 in w2.processes && w2.processes[1] == Disposer(INTENT, "op", Marked) && w2.stores == EMPTY.stores;
    hide Next;
    TwoSteps(w, Dispose(1, INTENT, "op"), w1, Mark(1), w2);
    JoinedRuns(EMPTY, p, [Dispose(1, INTENT, "op"), Mark(1)]);
    InvAlways(EMPTY, p + [Dispose(1, INTENT, "op"), Mark(1)]);
    DatedAlways(EMPTY, p + [Dispose(1, INTENT, "op"), Mark(1)]);
    StopAndChangeAbandon(w2, 1, RUN, "q", Row(1, "running"), 0);
    JoinedRuns(EMPTY, p + [Dispose(1, INTENT, "op"), Mark(1)], [Stop(1), Change("db", "q", Row(1, "running"), 0)]);
    run := p + [Dispose(1, INTENT, "op"), Mark(1)] + [Stop(1), Change("db", "q", Row(1, "running"), 0)];
  }
}
