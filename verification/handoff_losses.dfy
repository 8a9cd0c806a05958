/** The condition on losses is exact: each loss that it rules out can be followed, without another
    such loss, by a retry that makes a committed destination a second time. */
module HandoffLosses {
  import opened StrictJson
  import opened HandoffProtocol
  import opened HandoffSafety
  import opened HandoffContents
  import opened HandoffRuns
  import opened HandoffLeaks
  import opened HandoffReplay

  // ---------------------------------------------------------------- careful runs

  /** A careful run that leads from one world to another. */
  ghost predicate CarefullyLeads(w: World, run: seq<Event>, v: World) { After(w, run) == Some(v) && CarefulRun(w, run) }

  /** Some careful continuation ends where a retry makes a committed destination again. */
  ghost predicate Replayable(w: World)
  {
    exists run, v, a :: CarefullyLeads(w, run, v) && Recreates(v, Act(a, Open))
  }

  lemma {:induction false} LosslessIsCareful(start: World, run: seq<Event>)
    requires Lossless(run)
    ensures CarefulRun(start, run)
    decreases |run|
  {
    if run != [] {
      assert run[|run| - 1] in run;
      LosslessIsCareful(start, run[..|run| - 1]);
    }
  }

  lemma {:induction false} CarefullyJoined(w: World, p: seq<Event>, q: seq<Event>)
    requires After(w, p).Some? && CarefulRun(w, p) && CarefulRun(After(w, p).value, q)
    ensures CarefulRun(w, p + q)
    decreases |q|
  {
    hide Next, Careless;
    if q == [] {
      assert p + q == p;
    } else {
      var k := |q| - 1;
      assert (p + q)[..|p + q| - 1] == p + q[..k];
      CarefullyJoined(w, p, q[..k]);
      Joined(w, p, q[..k]);
    }
  }

  lemma CarefullyOn(w: World, p: seq<Event>, u: World, q: seq<Event>, v: World)
    requires CarefullyLeads(w, p, u) && CarefullyLeads(u, q, v)
    ensures CarefullyLeads(w, p + q, v)
  {
    hide After, CarefulRun;
    Joined(w, p, q);
    CarefullyJoined(w, p, q);
  }

  lemma CarefullyOne(w: World, e: Event, v: World)
    requires Next(w, e) == Some(v) && !Careless(w, e)
    ensures CarefullyLeads(w, [e], v)
  {
    hide Next, Careless;
    One(w, e, v);
    assert [e][..0] == [];
    assert After(w, [e][..0]) == Some(w) && CarefulRun(w, [e][..0]);
  }

  // ---------------------------------------------------------------- the retry goes on

  /** The rest of the retirements of an activation whose sources are all retired already. */
  lemma {:induction false} RetireAll(w: World, a: nat) returns (run: seq<Event>, v: World)
    requires a in w.activators && w.activators[a].phase.Retiring?
    requires w.activators[a].done <= w.activators[a].request.members.Keys
    requires Retired(w.disk, w.activators[a].request)
    ensures After(w, run) == Some(v) && v.disk == w.disk && v.history == w.history && Lossless(run)
    ensures a in v.activators && v.activators[a] == w.activators[a].(done := w.activators[a].request.members.Keys)
    decreases |w.activators[a].request.members.Keys - w.activators[a].done|
  {
    var x := w.activators[a];
    if x.request.members.Keys - x.done == {} {
      forall s | s in x.request.members ensures s in x.done {
        assert s !in x.request.members.Keys - x.done;
      }
      return [], w;
    }
    var s :| s in x.request.members.Keys - x.done;
    var u := w.(activators := w.activators[a := x.(done := x.done + {s})]);
    assert Next(w, Act(a, Retire(s))) == Some(u);
    assert x.request.members.Keys - u.activators[a].done == (x.request.members.Keys - x.done) - {s};
    var rest, end := RetireAll(u, a);
    hide Next;
    One(w, Act(a, Retire(s)), u);
    Joined(w, [Act(a, Retire(s))], rest);
    return [Act(a, Retire(s))] + rest, end;
  }

  /** Its leases still stand once its destination is gone. */
  lemma LeasesOutlive(d: Disk, e: Disk, a: nat, x: Activator, y: Activator)
    requires LeasesOk(d, a, x) && y.request == x.request && y.leases == x.leases && e.gates <= d.gates
    requires forall s :: s in x.request.members && s in d.records ==> s in e.records && e.records[s] == d.records[s]
    ensures LeasesOk(e, a, y)
  {
    forall s | s in y.request.members ensures LeaseOk(e, a, y, s) {
      assert LeaseOk(d, a, x, s);
    }
  }

  /** An activation of a committed request that holds its leases and is retiring its sources
      opens the destination afresh if that is gone. */
  lemma OpensAgain(w: World, a: nat) returns (run: seq<Event>, v: World)
    requires a in w.activators && w.activators[a].phase.Retiring? && w.activators[a].request in w.history.committed
    requires w.activators[a].done <= w.activators[a].request.members.Keys && Retired(w.disk, w.activators[a].request)
    requires LeasesOk(w.disk, a, w.activators[a]) && w.activators[a].request.dest !in w.disk.dirs
    ensures CarefullyLeads(w, run, v) && Recreates(v, Act(a, Open))
  {
    hide LeasesOk, Retired, After, Next, CarefulRun;
    run, v := RetireAll(w, a);
    LosslessIsCareful(w, run);
    LeasesOutlive(w.disk, v.disk, a, w.activators[a], v.activators[a]);
  }

  /** A committed request's retry that holds its leases. */
  ghost predicate Returning(w: World, a: nat)
    requires a in w.activators
  {
    var x := w.activators[a];
    && x.request in w.history.committed && Retired(w.disk, x.request) && LeasesOk(w.disk, a, x)
    && x.done <= x.request.members.Keys && x.leases.Keys <= x.request.members.Keys
  }

  lemma ReturningOf(w: World, a: nat)
    requires Inv(w) && ReceiptsRight(w) && a in w.activators && w.activators[a].request in w.history.committed
    requires LeasesOk(w.disk, a, w.activators[a])
    ensures Returning(w, a)
  {
    assert LeasesRight(w.disk, a, w.activators[a]) by { assert LocalOk(w.disk, a, w.activators[a]); }
  }

  /** If the destination of a committed activation is lost just after a retry has checked it,
      the retry makes it again. */
  lemma CarelessLossReplays(w: World, a: nat, v: World) returns (run: seq<Event>, u: World)
    requires a in w.activators && w.activators[a].phase.Retiring? && w.activators[a].request in w.history.committed
    requires Next(w, LoseDir(w.activators[a].request.dest)) == Some(v)
    requires LeasesOk(w.disk, a, w.activators[a]) && ReceiptsRight(w) && Inv(w)
    ensures Careless(w, LoseDir(w.activators[a].request.dest))
    ensures CarefullyLeads(v, run, u) && Recreates(u, Act(a, Open))
  {
    hide *;
    ReturningOf(w, a);
    CarelessDir(w, a);
    run, u := LossReplays(w, a, w.activators[a], v);
  }

  lemma CarelessDir(w: World, a: nat)
    requires a in w.activators && w.activators[a].phase.Retiring? && w.activators[a].request in w.history.committed
    ensures Careless(w, LoseDir(w.activators[a].request.dest))
  {
    assert Retrying(w, a, w.activators[a].request.dest);
  }

  lemma LossReplays(w: World, a: nat, x: Activator, v: World) returns (run: seq<Event>, u: World)
    requires a in w.activators && w.activators[a] == x && x.phase.Retiring? && Returning(w, a)
    requires Next(w, LoseDir(x.request.dest)) == Some(v)
    ensures CarefullyLeads(v, run, u) && Recreates(u, Act(a, Open))
  {
    hide CarefullyLeads, Recreates, LeasesOk;
    StillReturning(w, v, a, x.request.dest);
    run, u := OpensAgain(v, a);
  }

  /** The loss of a destination that keeps no source of the request leaves the retry where it is. */
  lemma StillReturning(w: World, v: World, a: nat, t: Dir)
    requires a in w.activators && Returning(w, a)
    requires Next(w, LoseDir(t)) == Some(v)
    ensures Returning(v, a)
  {
    var x := w.activators[a];
    hide LeasesOk, Retired;
    RetiredGrows(w.disk, v.disk, x.request);
    forall s | s in x.request.members ensures s.dir != t {
      assert s in w.disk.retired;
    }
    LeasesOutlive(w.disk, v.disk, a, x, x);
  }

  /** If instead its reservation is lost between the check for a lost one and the claim, a later
      loss of the destination leads to the same. */
  lemma CarelessReservationReplays(w: World, a: nat, v: World) returns (run: seq<Event>, u: World)
    requires a in w.activators && w.activators[a].phase.Reserving? && w.activators[a].request in w.history.committed
    requires Next(w, LoseReservation(w.activators[a].request.dest)) == Some(v) && !Pinned(w.disk, w.activators[a].request.dest)
    requires LeasesOk(w.disk, a, w.activators[a]) && ReceiptsRight(w) && Inv(w)
    ensures Careless(w, LoseReservation(w.activators[a].request.dest))
    ensures CarefullyLeads(v, run, u) && Recreates(u, Act(a, Open))
  {
    hide *;
    ReturningOf(w, a);
    CarelessReservation(w, a);
    run, u := ReservationReplays(w, a, w.activators[a], w.activators[a].request.dest, v);
  }

  lemma CarelessReservation(w: World, a: nat)
    requires a in w.activators && w.activators[a].phase.Reserving? && w.activators[a].request in w.history.committed
    requires !Pinned(w.disk, w.activators[a].request.dest)
    ensures Careless(w, LoseReservation(w.activators[a].request.dest))
  {
    hide Pinned;
    assert Retrying(w, a, w.activators[a].request.dest);
  }

  lemma ReservationReplays(w: World, a: nat, x: Activator, t: Dir, v: World) returns (run: seq<Event>, u: World)
    requires a in w.activators && w.activators[a] == x && x.phase.Reserving? && x.request.dest == t && Returning(w, a)
    requires Next(w, LoseReservation(t)) == Some(v) && !Pinned(w.disk, t)
    ensures CarefullyLeads(v, run, u) && Recreates(u, Act(a, Open))
  {
    hide CarefullyLeads, Recreates, LeasesOk, Retired, Pinned;
    var p, v1 := LeftAlone(v, a, x);
    StillAble(w, v1, a);
    PinnedStays(v1.disk, w.disk);
    var v2 := DirGone(v1, a, x, t);
    CarefullyOn(v, p, v1, [LoseDir(t)], v2);
    var v3 := ClaimedAgain(v2, a, x);
    CarefullyOn(v, p + [LoseDir(t)], v2, [Act(a, Reserve)], v3);
    var q;
    q, u := OpensAgain(v3, a);
    CarefullyOn(v, p + [LoseDir(t)] + [Act(a, Reserve)], v3, q, u);
    run := p + [LoseDir(t)] + [Act(a, Reserve)] + q;
  }

  lemma LeftAlone(v: World, a: nat, x: Activator) returns (p: seq<Event>, u: World)
    requires a in v.activators && v.activators[a] == x
    ensures CarefullyLeads(v, p, u) && u == v.(activators := map[a := x], writers := map[])
  {
    hide After, OrderlyRun, CarefulRun;
    p, u := LeftWith(v, map[a := x], map[]);
    LosslessIsCareful(v, p);
  }

  lemma StillAble(w: World, v: World, a: nat)
    requires a in w.activators && Returning(w, a) && a in v.activators && v.activators[a] == w.activators[a]
    requires v.disk == w.disk.(reservations := v.disk.reservations) && v.history.committed == w.history.committed
    ensures Returning(v, a)
  {
    LeasesOutlive(w.disk, v.disk, a, w.activators[a], v.activators[a]);
  }

  /** The last one left is still checking when the directory goes. */
  lemma DirGone(w: World, a: nat, x: Activator, t: Dir) returns (v: World)
    requires w.activators == map[a := x] && w.writers == map[] && x.phase.Reserving? && x.request.dest == t
    requires Returning(w, a) && !Pinned(w.disk, t) && t !in w.disk.reservations
    ensures CarefullyLeads(w, [LoseDir(t)], v) && v.activators == w.activators && Returning(v, a)
    ensures t !in v.disk.dirs && t !in v.disk.reservations
  {
    assert !Careless(w, LoseDir(t));
    hide LeasesOk, CarefullyLeads, Careless;
    assert MayLose(w, t);
    v := Next(w, LoseDir(t)).value;
    StillReturning(w, v, a, t);
    hide Next;
    CarefullyOne(w, LoseDir(t), v);
  }

  lemma ClaimedAgain(w: World, a: nat, x: Activator) returns (v: World)
    requires w.activators == map[a := x] && x.phase.Reserving? && Returning(w, a)
    requires x.request.dest !in w.disk.dirs && x.request.dest !in w.disk.reservations
    ensures CarefullyLeads(w, [Act(a, Reserve)], v) && a in v.activators && v.activators[a].phase.Retiring?
    ensures v.activators[a].request == x.request && Returning(v, a) && x.request.dest !in v.disk.dirs
  {
    hide LeasesOk, CarefullyLeads, Retired;
    v := Next(w, Act(a, Reserve)).value;
    RetiredGrows(w.disk, v.disk, x.request);
    LeasesOutlive(w.disk, v.disk, a, x, v.activators[a]);
    CarefullyOne(w, Act(a, Reserve), v);
  }

  // ---------------------------------------------------------------- the condition is exact

  /** After an orderly run the leases of an activation that has them all are good. */
  lemma LeasesHold(w: World, a: nat)
    requires Inv(w) && Grounded(w.disk, w.activators) && a in w.activators && Leased(w.activators[a].phase)
    ensures LeasesOk(w.disk, a, w.activators[a])
  {
    var x := w.activators[a];
    assert LeasesRight(w.disk, a, x) by { assert LocalOk(w.disk, a, x); }
    hide Inv;
    forall s | s in x.request.members ensures LeaseOk(w.disk, a, x, s) {
      assert s in Grip(x);
      assert Anchored(w.disk, s);
    }
  }

  /** For a world reached by an orderly and careful run and any step that is possible there: the
      step is careful exactly if no careful continuation makes a committed destination again. */
  lemma CarefulIsExact(start: World, run: seq<Event>, e: Event)
    requires Initial(start) && After(start, run).Some? && OrderlyRun(start, run) && CarefulRun(start, run)
    requires Next(After(start, run).value, e).Some?
    ensures var w := After(start, run).value; Careless(w, e) <==> Replayable(Next(w, e).value)
  {
    var w := After(start, run).value;
    var v := Next(w, e).value;
    InvAlways(start, run);
    if Careless(w, e) {
      CalmAlways(start, run);
      SettledAlways(start, run);
      CalmParts(w);
      hide Initial, After, OrderlyRun, CarefulRun, Inv, Calm, Documented, Replayable;
      CarelessReplays(w, e, v);
    } else if Replayable(v) {
      hide Initial, Inv, OrderlyRun, Careless, Next, Recreates;
      var more, u, a :| CarefullyLeads(v, more, u) && Recreates(u, Act(a, Open));
      CarefullyOne(w, e, v);
      CarefullyOn(start, run, w, [e], v);
      CarefullyOn(start, run + [e], v, more, u);
      NeverReplayed(start, run + [e] + more, Act(a, Open));
    }
  }

  lemma CarelessReplays(w: World, e: Event, v: World)
    requires Inv(w) && Traced(w) && Grounded(w.disk, w.activators) && Careless(w, e) && Next(w, e) == Some(v)
    ensures Replayable(v)
  {
    hide Inv, Grounded, Next, CarefullyLeads, Recreates;
    var t := e.d;
    if e.LoseDir? {
      var a :| Retrying(w, a, t) && w.activators[a].phase.Retiring?;
      LeasesHold(w, a);
      var run, u := CarelessLossReplays(w, a, v);
    } else {
      var a :| Retrying(w, a, t) && w.activators[a].phase.Reserving?;
      LeasesHold(w, a);
      var run, u := CarelessReservationReplays(w, a, v);
    }
  }
}
