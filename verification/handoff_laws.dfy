/** What the handoff promises over whole runs: one writable owner, one successor for each
    source, a loser that retires nothing, and fences that never repeat. */
module HandoffLaws {
  import opened StrictJson
  import opened HandoffProtocol
  import opened HandoffSafety

  // ---------------------------------------------------------------- one owner, one successor

  /** A new writer can open the database, or one has it open. */
  ghost predicate Writable(w: World, s: Db)
  {
    || (s in w.disk.content && s.dir !in w.disk.gates && s !in w.disk.retired)
    || (exists c :: c in w.writers && w.writers[c].phase.Connected? && w.writers[c].db == s)
  }

  /** From the moment an activation puts the first component in place, and so at every moment
      when its successor can be written, none of its sources can be written. */
  lemma NeverBothWritable(start: World, run: seq<Event>, r: Request, s: Db)
    requires Initial(start) && After(start, run).Some?
    requires var w := After(start, run).value; r in w.history.placed + w.history.ungated && s in r.members
    ensures !Writable(After(start, run).value, s)
  {
    hide After, Initial;
    InvAlways(start, run);
    var w := After(start, run).value;
    assert Retired(w.disk, r);
  }

  /** Two activations that put components in place, at whatever times, share no source. */
  lemma OneSuccessor(start: World, run: seq<Event>, q: Request, r: Request, s: Db)
    requires Initial(start) && After(start, run).Some?
    requires var h := After(start, run).value.history;
             q in h.placed + h.ungated && r in h.placed + h.ungated && s in q.members && s in r.members
    ensures q == r
  {
    hide After, Initial;
    InvAlways(start, run);
    var w := After(start, run).value;
    assert Retired(w.disk, q) && Retired(w.disk, r);
  }

  /** A retired source keeps, for ever, the contents its successor was made from. */
  lemma RetiredIsFrozen(start: World, run: seq<Event>, s: Db)
    requires Initial(start) && After(start, run).Some? && s in After(start, run).value.disk.retired
    ensures var d := After(start, run).value.disk;
            && s in d.retired[s].members && s in d.content
            && d.content[s] == d.retired[s].members[s].content
            && !Writable(After(start, run).value, s)
  {
    hide After, Initial;
    InvAlways(start, run);
  }

  /** While a source differs from what the snapshot recorded, no activation of a request for it
      gets past its verification: it does not reserve, retire or copy anything. */
  lemma ChangedSourceRefused(start: World, run: seq<Event>, a: nat, s: Db)
    requires Initial(start) && After(start, run).Some?
    requires var w := After(start, run).value; a in w.activators && s in w.activators[a].request.members
    requires var w := After(start, run).value;
             s in w.disk.content ==> w.disk.content[s] != w.activators[a].request.members[s].content
    ensures var w := After(start, run).value;
            && !PastVerify(w.activators[a].phase) && LocalStep(w, a, Judge).None? && LocalStep(w, a, Verify(s)).None?
            && (s in w.disk.retired ==> w.disk.retired[s] != w.activators[a].request)
  {
    InvAlways(start, run);
    hide *;
    var w := After(start, run).value;
    StillVerifying(w, a, w.activators[a], s);
  }

  lemma StillVerifying(w: World, a: nat, x: Activator, s: Db)
    requires a in w.activators && w.activators[a] == x && s in x.request.members && Inv(w)
    requires s in w.disk.content ==> w.disk.content[s] != x.request.members[s].content
    ensures !PastVerify(x.phase) && LocalStep(w, a, Judge).None? && LocalStep(w, a, Verify(s)).None?
    ensures s in w.disk.retired ==> w.disk.retired[s] != x.request
  {
    assert LocalOk(w.disk, a, x);
    hide LeasesRight, LocalOk;
  }

  // ---------------------------------------------------------------- reservations

  /** Every retirement and receipt belongs to a request that was reserved, and a reservation
      that was never lost still belongs to whoever got it. */
  ghost predicate ReservedFirst(w: World)
  {
    && (forall s :: s in w.disk.retired ==> w.disk.retired[s] in w.history.reserved)
    && (forall a :: a in w.activators && PastReserve(w.activators[a].phase) ==>
          w.activators[a].request in w.history.reserved)
    && (forall d :: d in w.disk.receipts ==> w.disk.receipts[d] in w.history.reserved && w.disk.receipts[d].dest == d)
    && (forall r :: r in w.history.reserved ==> Owns(w, r))
    && (forall a :: a in w.activators ==> w.activators[a].request.members != map[] && WellNamed(w.activators[a].request))
    && (forall r :: r in w.history.reserved ==> r.members != map[] && WellNamed(r))
  }

  predicate Owns(w: World, r: Request)
  {
    r.dest in w.history.lostReservations
    || (r.dest in w.disk.reservations && w.disk.reservations[r.dest].request == r)
  }

  lemma ReservedStep(w: World, a: nat, action: Action)
    requires ReservedFirst(w) && ActivationStep(w, a, action).Some?
    ensures ReservedFirst(ActivationStep(w, a, action).value)
  {
    hide LocalStep, Noted, Owns, WellNamed;
    var v := ActivationStep(w, a, action).value;
    PhaseChanges(w, a, action);
    MarkersChange(w, a, action);
    forall r | r in v.history.reserved ensures Owns(v, r) {
      if r in w.history.reserved {
        ReservationStays(w, a, action, r);
      }
    }
  }

  /** What an activation's step can do to markers and receipts. */
  lemma MarkersChange(w: World, a: nat, action: Action)
    requires a in w.activators && LocalStep(w, a, action).Some?
    ensures var next, d, x := LocalStep(w, a, action).value, w.disk, w.activators[a];
            && (forall s :: s in next.disk.retired ==>
                  || (s in d.retired && next.disk.retired[s] == d.retired[s])
                  || (PastReserve(x.phase) && next.disk.retired[s] == x.request))
            && (next.disk.receipts == d.receipts
                || (PastReserve(x.phase) && next.disk.receipts == d.receipts[x.request.dest := x.request]))
  {
    if Quiet(action) {
      hide LocalStep;
      QuietDisk(w, a, action);
    } else {
      hide LeasesOk, ComponentsExist, Initializing, Acceptable, Continues, HeldBySome, SharedBySome;
    }
  }

  /** What it can do to its phase and to the reservations. */
  lemma PhaseChanges(w: World, a: nat, action: Action)
    requires ActivationStep(w, a, action).Some?
    ensures var v, x := ActivationStep(w, a, action).value, w.activators[a];
            && v.history.lostReservations == w.history.lostReservations
            && v.history.reserved == w.history.reserved + (if action.Reserve? then {x.request} else {})
            && (action.Reserve? ==> Owns(v, x.request))
            && v.activators == w.activators[a := v.activators[a]]
            && v.activators[a].request == x.request
            && (PastReserve(v.activators[a].phase) ==> PastReserve(x.phase) || action.Reserve?)
  {
    hide LeasesOk, ComponentsExist, Initializing, Acceptable, HeldBySome, SharedBySome, RetirementAllows;
  }

  /** A step of an activation changes whose reservation it is only where there is none. */
  lemma ReservationStays(w: World, a: nat, action: Action, r: Request)
    requires ReservedFirst(w) && ActivationStep(w, a, action).Some? && r in w.history.reserved
    ensures Owns(ActivationStep(w, a, action).value, r)
  {
    hide LocalStep, Noted;
    assert Owns(w, r);
    ReservationsChange(w, a, action);
    HistoryStays(w, a, action);
    var x := w.activators[a];
    if PastReserve(x.phase) {
      assert Owns(w, x.request);
    }
    if x.request.dest in w.disk.receipts {
      assert Owns(w, w.disk.receipts[x.request.dest]);
    }
  }

  /** A reservation is published where there is none, or replaced by a receipt of its own. */
  lemma ReservationsChange(w: World, a: nat, action: Action)
    requires a in w.activators && LocalStep(w, a, action).Some?
    ensures var d, e, x := w.disk, LocalStep(w, a, action).value.disk, w.activators[a];
            var t := x.request.dest;
            e.reservations == d.reservations
            || (t !in d.reservations && e.reservations == d.reservations[t := Reservation(x.request, false)])
            || (PastReserve(x.phase) && e.reservations == d.reservations[t := Reservation(x.request, true)])
            || (t in d.receipts && e.reservations == d.reservations[t := Reservation(d.receipts[t], true)])
  {
    if Quiet(action) {
      hide LocalStep;
      QuietDisk(w, a, action);
    } else {
      hide LeasesOk, ComponentsExist, Initializing, Continues;
    }
  }

  lemma HistoryStays(w: World, a: nat, action: Action)
    requires ActivationStep(w, a, action).Some?
    ensures ActivationStep(w, a, action).value.history.lostReservations == w.history.lostReservations
  {
    hide LocalStep;
  }

  lemma {:induction false} ReservedAlways(start: World, run: seq<Event>)
    requires Initial(start) && After(start, run).Some?
    ensures ReservedFirst(After(start, run).value)
    decreases |run|
  {
    hide ActivationStep;
    if run != [] {
      var before, e := run[..|run| - 1], run[|run| - 1];
      AfterLastStep(start, run);
      ReservedAlways(start, before);
      hide After, Initial;
      var w := After(start, before).value;
      hide ReservedFirst;
      if e.Act? {
        ReservedStep(w, e.a, e.action);
      } else {
        ReservedOther(w, e);
      }
    }
  }

  lemma AfterLastStep(start: World, run: seq<Event>)
    requires run != [] && After(start, run).Some?
    ensures After(start, run[..|run| - 1]).Some?
    ensures After(start, run) == Next(After(start, run[..|run| - 1]).value, run[|run| - 1])
  {
    hide Next;
  }

  lemma ReservedOther(w: World, e: Event)
    requires ReservedFirst(w) && !e.Act? && Next(w, e).Some?
    ensures ReservedFirst(Next(w, e).value)
  {
    OtherFrame(w, e);
    hide Next, WellNamed;
    var v := Next(w, e).value;
    forall r | r in w.history.reserved ensures Owns(v, r) {
      assert Owns(w, r);
    }
  }

  /** What the steps of writers, crashes and losses leave alone. */
  lemma OtherFrame(w: World, e: Event)
    requires !e.Act? && Next(w, e).Some?
    ensures var v := Next(w, e).value;
            && v.disk.retired == w.disk.retired && v.history.reserved == w.history.reserved
            && (forall t :: t in v.disk.receipts ==> t in w.disk.receipts && v.disk.receipts[t] == w.disk.receipts[t])
            && (forall t :: t in w.disk.reservations && t !in v.history.lostReservations ==>
                  t in v.disk.reservations && v.disk.reservations[t] == w.disk.reservations[t])
            && w.history.lostReservations <= v.history.lostReservations
            && (forall a :: a in v.activators ==>
                  || (a in w.activators && v.activators[a] == w.activators[a])
                  || (v.activators[a].phase.Preparing? && v.activators[a].request.members != map[]
                      && WellNamed(v.activators[a].request)))
  {
    hide MayLose, HeldBySome, WellNamed;
    if e.Client? {
      hide ClientStep;
      ClientFrame(w, e.c, e.use);
    }
  }

  lemma ClientFrame(w: World, c: nat, use: Use)
    requires ClientStep(w, c, use).Some?
    ensures var v := ClientStep(w, c, use).value;
            v.disk == w.disk.(content := v.disk.content) && v.activators == w.activators && v.history == w.history
  {
    hide HeldBySome;
  }

  /** An activation whose destination is reserved by another has retired none of its sources,
      in this run or an earlier one, unless the reservation file was lost in between. */
  lemma LoserRetiresNothing(start: World, run: seq<Event>, r: Request)
    requires Initial(start) && After(start, run).Some?
    requires var w := After(start, run).value;
             && r.dest in w.disk.reservations && w.disk.reservations[r.dest].request != r
             && r.dest !in w.history.lostReservations
    ensures var w := After(start, run).value;
            && r !in w.history.reserved
            && forall s :: s in w.disk.retired ==> w.disk.retired[s] != r
  {
    hide After, Initial;
    ReservedAlways(start, run);
    var w := After(start, run).value;
    assert r in w.history.reserved ==> Owns(w, r);
  }

  // ---------------------------------------------------------------- fences

  /** A lease that an activation holds is the one on record, and no one else holds it. */
  lemma LeaseIsCurrent(start: World, run: seq<Event>, a: nat, s: Db)
    requires Initial(start) && After(start, run).Some?
    requires var w := After(start, run).value; a in w.activators && s in w.activators[a].leases
    ensures var w := After(start, run).value;
            && s in w.disk.records && w.disk.records[s] == Record(w.activators[a].leases[s], Some(a))
            && (forall b :: b in w.activators && b != a ==> s !in Holds(w.activators[b]))
            && (forall c :: c in w.writers && Shares(w.writers[c]) ==> w.writers[c].db != s)
  {
    hide After, Initial;
    InvAlways(start, run);
    var w := After(start, run).value;
    assert LocalOk(w.disk, a, w.activators[a]);
    assert s in Holds(w.activators[a]);
  }

  lemma FenceStep(w: World, e: Event, s: Db)
    requires Inv(w) && Next(w, e).Some? && e != LoseDir(s.dir)
    ensures FenceOf(Next(w, e).value.disk, s) >= FenceOf(w.disk, s)
  {
    if e.Act? {
      assert LocalOk(w.disk, e.a, w.activators[e.a]) by { hide LocalOk, ActivationStep; }
      hide Inv, LocalOk, FenceOf;
      FenceAction(w, e.a, e.action, s);
    } else {
      hide Inv, MayLose, HeldBySome;
    }
  }

  lemma FenceAction(w: World, a: nat, action: Action, s: Db)
    requires a in w.activators && LocalOk(w.disk, a, w.activators[a]) && LocalStep(w, a, action).Some?
    ensures FenceOf(LocalStep(w, a, action).value.disk, s) >= FenceOf(w.disk, s)
  {
    var x, next := w.activators[a], LocalStep(w, a, action).value;
    assert LeasesRight(w.disk, a, x);
    hide LocalOk, SourcesRight;
    if action.PublishLease? || action.Release? {
    } else {
      hide LocalStep, LeasesRight;
      RecordsSame(w, a, action);
    }
  }

  /** Only leases that are published or given back change a record. */
  lemma RecordsSame(w: World, a: nat, action: Action)
    requires a in w.activators && LocalStep(w, a, action).Some? && !action.PublishLease? && !action.Release?
    ensures LocalStep(w, a, action).value.disk.records == w.disk.records
  {
    hide LeasesOk, LeaseOk, ComponentsExist, Initializing, Acceptable, Continues, HeldBySome, SharedBySome, RetirementAllows;
  }

  lemma {:induction false} FencesRise(start: World, before: seq<Event>, after: seq<Event>, s: Db)
    requires Initial(start) && After(start, before).Some? && After(start, before + after).Some?
    requires LoseDir(s.dir) !in after
    ensures FenceOf(After(start, before + after).value.disk, s) >= FenceOf(After(start, before).value.disk, s)
    decreases |after|
  {
    hide Next, Initial, FenceOf;
    if after == [] {
      assert before + after == before;
    } else {
      var k := |after| - 1;
      assert (before + after)[..|before + after| - 1] == before + after[..k];
      AfterLastStep(start, before + after);
      FencesRise(start, before, after[..k], s);
      InvAlways(start, before + after[..k]);
      hide Inv;
      FenceStep(After(start, before + after[..k]).value, after[k], s);
    }
  }

  /** A lease granted later has a greater fence than every fence published before it. */
  lemma FencesNeverRepeat(start: World, before: seq<Event>, after: seq<Event>, a: nat, s: Db)
    requires Initial(start) && After(start, before).Some? && After(start, before + after).Some?
    requires LoseDir(s.dir) !in after
    requires var w := After(start, before + after).value;
             && a in w.activators && w.activators[a].phase.Fenced? && w.activators[a].phase.source == s
    ensures var w := After(start, before + after).value;
            var granted := TakeLease(w.disk, a, w.activators[a]);
            && granted.Some? && s in granted.value.x.leases
            && granted.value.x.leases[s] > FenceOf(After(start, before).value.disk, s)
  {
    FencesRise(start, before, after, s);
    InvAlways(start, before + after);
    hide After, Initial, FenceOf;
    var w := After(start, before + after).value;
    assert LocalOk(w.disk, a, w.activators[a]);
  }
}
