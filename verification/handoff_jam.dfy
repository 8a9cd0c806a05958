/** What it costs when a writer spoils a component before its gate falls and the activation then
    stops: no retry can ever finish, while the sources stay retired. */
module HandoffJam {
  import opened StrictJson
  import opened HandoffProtocol
  import opened HandoffSafety
  import opened HandoffLaws
  import opened HandoffContents
  import opened HandoffRuns
  import opened HandoffLeaks

  /** A spoiled copy under its gate, with nobody left who could still remove the gate or repair it. */
  ghost predicate Jammed(w: World, r: Request, s: Db)
  {
    && Spoiled(w.disk, r, s) && r.dest in w.disk.gates && Retired(w.disk, r)
    && (forall c :: c in w.writers ==> w.writers[c].db != Component(r, s))
    && (forall a :: a in w.activators && w.activators[a].request.dest == r.dest ==> Refused(w.activators[a], r, s))
  }

  /** The activation has not entered the directory, or is comparing and will not get past `s`. */
  predicate Refused(x: Activator, r: Request, s: Db)
  {
    !Within(x.phase) && (x.phase.Rehashing? ==> x.request == r && s !in x.done)
  }

  lemma MarkersStay(w: World, a: nat, action: Action)
    requires a in w.activators && LocalStep(w, a, action).Some?
    ensures forall s :: s in w.disk.retired ==>
      s in LocalStep(w, a, action).value.disk.retired && LocalStep(w, a, action).value.disk.retired[s] == w.disk.retired[s]
  {
    hide LeasesOk, ComponentsExist, Initializing, Acceptable, Continues, HeldBySome, SharedBySome, RetirementAllows, LeaseOk;
  }

  /** Opening the spoiled copy leads its own request to the comparison and refuses every other. */
  lemma OpenRefused(d: Disk, a: nat, x: Activator, r: Request, s: Db)
    requires Spoiled(d, r, s) && r.dest in d.gates && x.request.dest == r.dest
    ensures OpenDest(d, a, x).Some? ==>
      OpenDest(d, a, x).value.disk == d && Refused(OpenDest(d, a, x).value.x, r, s)
  {
    hide LeasesOk, ComponentsExist, Initializing;
  }

  lemma OwnRefused(w: World, a: nat, action: Action, r: Request, s: Db)
    requires a in w.activators && Spoiled(w.disk, r, s) && r.dest in w.disk.gates
    requires w.activators[a].request.dest == r.dest && Refused(w.activators[a], r, s) && LocalStep(w, a, action).Some?
    ensures Refused(LocalStep(w, a, action).value.x, r, s)
    ensures LocalStep(w, a, action).value.disk.dirs == w.disk.dirs
  {
    if action.Open? {
      OpenRefused(w.disk, a, w.activators[a], r, s);
    } else {
      OutsideStays(w, a, action);
      hide LeasesOk, ComponentsExist, Initializing, Acceptable, Continues, HeldBySome, SharedBySome, RetirementAllows, LeaseOk;
    }
  }

  lemma ActionJammed(w: World, a: nat, action: Action, r: Request, s: Db)
    requires Jammed(w, r, s) && ActivationStep(w, a, action).Some?
    ensures Jammed(ActivationStep(w, a, action).value, r, s)
  {
    hide LocalStep, Noted, Names, Within, ActivationStep;
    Stepped(w, a, action);
    MarkersStay(w, a, action);
    ActionTouches(w, a, action);
    if w.activators[a].request.dest == r.dest {
      OwnRefused(w, a, action, r, s);
      OutsideStays(w, a, action);
    }
  }

  lemma OtherJammed(w: World, e: Event, r: Request, s: Db)
    requires Jammed(w, r, s) && Next(w, e).Some? && !e.Act? && e != LoseDir(r.dest)
    ensures Jammed(Next(w, e).value, r, s)
  {
    hide MayLose, HeldBySome;
  }

  lemma {:induction false} JamHolds(w: World, more: seq<Event>, r: Request, s: Db)
    requires Jammed(w, r, s) && After(w, more).Some? && LoseDir(r.dest) !in more
    ensures Jammed(After(w, more).value, r, s)
    decreases |more|
  {
    hide Next, Jammed;
    if more != [] {
      var before, e := more[..|more| - 1], more[|more| - 1];
      AfterLastStep(w, more);
      JamHolds(w, before, r, s);
      hide After;
      if e.Act? {
        JammedAct(After(w, before).value, e, r, s);
      } else {
        OtherJammed(After(w, before).value, e, r, s);
      }
    }
  }

  lemma JammedAct(w: World, e: Event, r: Request, s: Db)
    requires e.Act? && Jammed(w, r, s) && Next(w, e).Some?
    ensures Jammed(Next(w, e).value, r, s)
  {
    hide Jammed, ActivationStep;
    ActionJammed(w, e.a, e.action, r, s);
  }

  /** From a jammed destination on, until its directory is lost, nobody ever removes the gate or
      takes up the receipt, and no source can be written. */
  lemma RetriesRefused(start: World, run: seq<Event>, more: seq<Event>, r: Request, s: Db, a: nat, m: Db)
    requires Initial(start) && After(start, run).Some? && Jammed(After(start, run).value, r, s)
    requires LoseDir(r.dest) !in more && After(start, run + more).Some?
    requires var w := After(start, run + more).value; a in w.activators && w.activators[a].request.dest == r.dest && m in r.members
    ensures var w := After(start, run + more).value;
            && ActivationStep(w, a, DropGate).None? && ActivationStep(w, a, Adopt).None? && r.dest in w.disk.gates
            && !Writable(w, m)
  {
    hide Jammed, Next, ActivationStep, Writable;
    Joined(start, run, more);
    JamHolds(After(start, run).value, more, r, s);
    InvAlways(start, run + more);
    hide *;
    JamRefuses(After(start, run + more).value, r, s, a, m);
  }

  lemma JamRefuses(w: World, r: Request, s: Db, a: nat, m: Db)
    requires Inv(w) && Jammed(w, r, s) && a in w.activators && w.activators[a].request.dest == r.dest && m in r.members
    ensures ActivationStep(w, a, DropGate).None? && ActivationStep(w, a, Adopt).None? && r.dest in w.disk.gates && !Writable(w, m)
  {
    hide LeasesOk, LocalOk, Exclusive, Frozen;
  }

  /** A gate raised past a writer can be followed by such a jam: the writer spoils the copy, and
      the activation stops before it removes the gate. */
  lemma ExposedGateJams(start: World, run: seq<Event>, a: nat) returns (more: seq<Event>, s: Db)
    requires Initial(start) && After(start, run).Some? && OrderlyRun(start, run)
    requires var w := After(start, run).value; ActivationStep(w, a, RaiseGate).Some?
    requires Exposed(After(start, run).value.writers, After(start, run).value.activators[a].request)
    ensures After(start, run + [Act(a, RaiseGate)] + more).Some?
    ensures var w, u := After(start, run).value, After(start, run + [Act(a, RaiseGate)] + more).value;
            u.activators == map[] && u.writers == map[] && Jammed(u, w.activators[a].request, s)
  {
    InvAlways(start, run);
    CalmAlways(start, run);
    ReservedAlways(start, run);
    var w := After(start, run).value;
    var v := ActivationStep(w, a, RaiseGate).value;
    assert Regular(w);
    hide Initial, Regular, OrderlyRun, Inv, Calm, ReservedFirst, Jammed;
    var u;
    more, u, s := JamFrom(w, a, v);
    assert Next(w, Act(a, RaiseGate)) == Some(v) by { hide ActivationStep; }
    hide Next, ActivationStep;
    One(w, Act(a, RaiseGate), v);
    Joined(start, run, [Act(a, RaiseGate)]);
    Joined(start, run + [Act(a, RaiseGate)], more);
  }

  lemma JamFrom(w: World, a: nat, v: World) returns (more: seq<Event>, u: World, s: Db)
    requires a in w.activators && Exposed(w.writers, w.activators[a].request)
    requires ActivationStep(w, a, RaiseGate) == Some(v) && Regular(w)
    ensures After(v, more) == Some(u) && u.activators == map[] && u.writers == map[]
    ensures Jammed(u, w.activators[a].request, s)
  {
    var x := w.activators[a];
    assert Retired(v.disk, x.request) && x.request.dest in v.disk.gates by { RetiredWhenRaised(w, a, v); }
    hide Leads, Watched, Regular, ActivationStep, Leaks, Spoiled;
    var c :| c in w.writers && Names(x.request, w.writers[c].db);
    s :| s in x.request.members && Component(x.request, s) == w.writers[c].db;
    var y := x.(phase := Announcing);
    assert y.request == x.request;
    hide Retired, Jammed;
    var p, u1 := RaisedAlone(w, a, x, c, w.writers[c], v);
    var q, u2 := WatchedSpoils(u1, a, y, c, w.writers[c], s, x.request.dest);
    LeadsOn(v, p, u1, q, u2);
    var z;
    z, u := LeftWith(u2, map[], map[]);
    LeadsOn(v, p + q, u2, z, u);
    more := p + q + z;
    assert After(v, more) == Some(u) by { LeadsAfter(v, more, u); }
    RetiredLike(v.disk, u.disk, x.request);
    NowJammed(u, x.request, s);
  }

  lemma NowJammed(u: World, r: Request, s: Db)
    requires u.activators == map[] && u.writers == map[] && Spoiled(u.disk, r, s) && r.dest in u.disk.gates && Retired(u.disk, r)
    ensures Jammed(u, r, s)
  {
  }

  lemma LeadsAfter(w: World, run: seq<Event>, v: World)
    requires Leads(w, run, v)
    ensures After(w, run) == Some(v)
  {
  }

  lemma RetiredLike(d: Disk, e: Disk, r: Request)
    requires Retired(d, r) && e.retired == d.retired
    ensures Retired(e, r)
  {
  }

  lemma RetiredWhenRaised(w: World, a: nat, v: World)
    requires a in w.activators && ActivationStep(w, a, RaiseGate) == Some(v) && Regular(w)
    ensures Retired(v.disk, w.activators[a].request) && w.activators[a].request.dest in v.disk.gates
  {
    RaisedGate(w, a, w.activators[a], v);
    hide Calm, ReservedFirst, Retired, ActivationStep, Inv;
    SeenRetired(w, a);
    RetiredLike(w.disk, v.disk, w.activators[a].request);
  }
}
