/** Laws of the budget ledger over whole runs. */
module BudgetLaws {
  import opened StrictJson
  import opened Sums
  import opened BudgetLedger

  // ---------------------------------------------------------------- invariant

  lemma StepKeepsSound(s: State, op: Op)
    requires Sound(s)
    ensures Sound(Step(s, op).1)
  {
    match op
    case DoSettle(request, actual) => SettleKeepsSound(s, request, actual, false);
    case DoReconcile(request, final) => SettleKeepsSound(s, request, Some(final), true);
    case DoArchive(chosen) => ArchiveKeepsSound(s, chosen);
    case DoCreate(_, _, _) => assert Sum(map[]) == 0;
    case DoImport(_, _) => assert Sum(map[]) == 0;
    case _ =>
  }

  lemma SettleKeepsSound(s: State, request: string, actual: Option<nat>, reconcile: bool)
    requires Sound(s)
    ensures Sound(Settle(s, request, actual, reconcile).1)
  {
    if s.Some? && request in s.value.live {
      var row := Outcome(RowOf(s.value, request), actual);
      assert s.value.live[request := row].Keys == s.value.live.Keys;
      assert |s.value.live[request := row]| == |s.value.live|;
    }
  }

  lemma ArchiveKeepsSound(s: State, chosen: set<string>)
    requires Sound(s)
    ensures Sound(ArchiveRows(s, chosen).1)
  {
    if s.Some? {
      ArchivedRows(s.value, chosen);
      hide Sum, Moving;
    }
  }

  /** The effect of moving rows on the tables that the invariant speaks of. */
  lemma ArchivedRows(a: Account, chosen: set<string>)
    requires Sound(Some(a))
    ensures var rows := Moving(a, chosen);
            && |a.live - rows.Keys| <= |a.live|
            && (a.live - rows.Keys).Keys !! (a.archive + rows).Keys
            && ArchivedSpent(a).Some?
            && ArchivedSpent(a).value + Sum(ArchivedActuals(rows)) == Sum(ArchivedActuals(a.archive + rows))
  {
    hide Sum;
    var rows := Moving(a, chosen);
    KeysRemoved(a.live, rows.Keys);
    assert rows.Keys <= a.live.Keys;
    ArchivedUnion(a.archive, rows);
    if a.total.None? {
      NothingArchived(a.archive);
    }
  }

  lemma KeysRemoved<T>(m: map<string, T>, keys: set<string>)
    ensures (m - keys).Keys == m.Keys - keys && |m - keys| <= |m|
  {
    assert (m - keys).Keys == m.Keys - keys;
    CardinalityBound((m - keys).Keys, m.Keys);
  }

  lemma ArchivedUnion(archive: map<string, Archived>, rows: map<string, Archived>)
    requires archive.Keys !! rows.Keys
    ensures Sum(ArchivedActuals(archive + rows)) == Sum(ArchivedActuals(archive)) + Sum(ArchivedActuals(rows))
  {
    hide Sum;
    assert ArchivedActuals(archive + rows) == ArchivedActuals(archive) + ArchivedActuals(rows);
    SumUnion(ArchivedActuals(archive), ArchivedActuals(rows));
  }

  lemma NothingArchived(archive: map<string, Archived>)
    requires archive == map[]
    ensures Sum(ArchivedActuals(archive)) == 0
  {
    assert ArchivedActuals(archive).Keys == {};
  }

  lemma {:induction false} RunKeepsSound(s: State, ops: seq<Op>)
    requires Sound(s)
    ensures Sound(Run(s, ops))
    decreases |ops|
  {
    if |ops| > 0 {
      StepKeepsSound(s, ops[0]);
      RunKeepsSound(Step(s, ops[0]).1, ops[1..]);
    }
  }

  // ---------------------------------------------------------------- archiving is invisible

  /** The ledger as if nothing had ever been archived. */
  function Restored(archive: map<string, Archived>): map<string, Reservation>
  {
    map k | k in archive :: Settled(archive[k].amount, archive[k].actual)
  }

  function Merged(a: Account): Account
  {
    a.(live := a.live + Restored(a.archive), archive := map[], total := None)
  }

  function Unarchived(s: State): State
  {
    if s.None? then None else Some(Merged(s.value))
  }

  /** Two ledgers agree on everything that a response can show, except that the second may
      hold more rows in its live table. */
  ghost predicate Alike(a: Account, u: Account)
  {
    && (a.allowance, a.deadline, a.observed, a.imported) == (u.allowance, u.deadline, u.observed, u.imported)
    && Spent(u) == Spent(a) && Held(u) == Held(a)
    && Sum(Unknowns(u.live)) == Sum(Unknowns(a.live))
    && (IsBlocked(u) <==> IsBlocked(a))
    && ArchivedSpent(u).Some? && ArchivedSpent(a).Some?
    && |a.live| <= |u.live|
    && (forall k :: Known(u, k) <==> Known(a, k))
    && (forall k :: Known(a, k) ==> RowOf(u, k) == RowOf(a, k))
  }

  lemma MergedIsAlike(a: Account)
    requires Sound(Some(a))
    ensures Alike(a, Merged(a))
  {
    hide Sum, Held, Spent;
    MergedSums(a);
    MergedRows(a);
  }

  lemma MergedRows(a: Account)
    requires Sound(Some(a))
    ensures var u := Merged(a);
            && (IsBlocked(u) <==> IsBlocked(a))
            && |a.live| <= |u.live|
            && (forall k :: Known(u, k) <==> Known(a, k))
            && (forall k :: Known(a, k) ==> RowOf(u, k) == RowOf(a, k))
  {
    hide Sum;
    var u, back := Merged(a), Restored(a.archive);
    assert u.live.Keys == a.live.Keys + back.Keys;
    CardinalityBound(a.live.Keys, u.live.Keys);
    if IsBlocked(a) {
      var k :| k in a.live && !a.live[k].Settled?;
      assert k in u.live && u.live[k] == a.live[k];
    }
    if IsBlocked(u) {
      var k :| k in u.live && !u.live[k].Settled?;
      assert k in a.live;
    }
  }

  lemma MergedSums(a: Account)
    requires Sound(Some(a))
    ensures Spent(Merged(a)) == Spent(a) && Held(Merged(a)) == Held(a)
    ensures Sum(Unknowns(Merged(a).live)) == Sum(Unknowns(a.live))
    ensures ArchivedSpent(Merged(a)).Some? && ArchivedSpent(a).Some?
  {
    hide Sum, Actuals, Holds, Unknowns, Restored, ArchivedActuals;
    UnionSums(a.live, Restored(a.archive)) by { RestoredKeys(a.archive); }
    RestoredSums(a.archive);
    if a.total.None? {
      NothingArchived(a.archive);
    }
  }

  lemma RestoredKeys(archive: map<string, Archived>)
    ensures Restored(archive).Keys == archive.Keys
  {
  }

  lemma UnionSums(live: map<string, Reservation>, back: map<string, Reservation>)
    requires live.Keys !! back.Keys
    ensures Sum(Actuals(live + back)) == Sum(Actuals(live)) + Sum(Actuals(back))
    ensures Sum(Holds(live + back)) == Sum(Holds(live)) + Sum(Holds(back))
    ensures Sum(Unknowns(live + back)) == Sum(Unknowns(live)) + Sum(Unknowns(back))
  {
    hide Sum;
    assert Actuals(live + back) == Actuals(live) + Actuals(back);
    SumUnion(Actuals(live), Actuals(back));
    assert Holds(live + back) == Holds(live) + Holds(back);
    SumUnion(Holds(live), Holds(back));
    assert Unknowns(live + back) == Unknowns(live) + Unknowns(back);
    SumUnion(Unknowns(live), Unknowns(back));
  }

  lemma RestoredSums(archive: map<string, Archived>)
    ensures Sum(Actuals(Restored(archive))) == Sum(ArchivedActuals(archive))
    ensures Sum(Holds(Restored(archive))) == 0 && Sum(Unknowns(Restored(archive))) == 0
  {
    hide Sum;
    assert Actuals(Restored(archive)) == ArchivedActuals(archive);
    SumZero(Holds(Restored(archive)));
    SumZero(Unknowns(Restored(archive)));
  }

  lemma {:induction false} SumZero(m: map<string, nat>)
    requires forall k :: k in m ==> m[k] == 0
    ensures Sum(m) == 0
    decreases m.Keys
  {
    if m.Keys != {} {
      var k :| k in m.Keys;
      SumWithout(m, k);
      SumZero(m - {k});
    }
  }

  /** The one difference that archiving may make: the unarchived ledger says that its
      reservation history is full. */
  predicate SaysFull(r: Response)
  {
    r == Refused(HistoryFull) || (r.Observation? && r.status == CapacityExhausted)
  }

  /** One step on an archived ledger answers as the same step on the unarchived one, and
      the two stay the same ledger, unless the unarchived one is full. */
  lemma ArchivedStep(s: State, op: Op)
    requires Sound(s) && !op.DoArchive?
    ensures var (r, t) := Step(s, op);
            var (q, u) := Step(Unarchived(s), op);
            SaysFull(q) || (r == q && u == Unarchived(t))
  {
    if s.Some? {
      hide Spent, Held, Sum, Known, RowOf, IsBlocked, Inspect, Observe, Reserve, Settle, Restored, SaysFull,
           Create, ImportLegacy, Merged, Sound;
      match op
      case DoReserve(request, amount, c1, c2, c3) => ArchivedReserve(s, request, amount, c1, c2, c3);
      case DoSettle(request, actual) => ArchivedSettle(s, request, actual, false);
      case DoReconcile(request, final) => ArchivedSettle(s, request, Some(final), true);
      case DoObserve(amount, c) => ArchivedObserve(s, amount, c);
      case DoCreate(allowance, deadline, c) => ArchivedTerms(s, op);
      case DoImport(manifest, c) => ArchivedTerms(s, op);
      case DoInspect => ArchivedInspect(s.value);
    } else {
      FreshIsUnarchived(s, op);
    }
  }

  lemma ArchivedInspect(a: Account)
    requires Sound(Some(a))
    ensures Inspect(Some(Merged(a))) == Inspect(Some(a))
  {
    MergedIsAlike(a);
    hide Spent, Held, Sum, Known, RowOf, IsBlocked, Merged, Unknowns;
  }

  lemma ArchivedTerms(s: State, op: Op)
    requires Sound(s) && s.Some? && (op.DoCreate? || op.DoImport?)
    ensures Step(s, op) == (Step(s, op).0, s)
    ensures Step(Unarchived(s), op) == (Step(s, op).0, Unarchived(s))
  {
    ArchivedInspect(s.value);
    MergedFields(s.value);
    hide Inspect, Restored, Sum;
  }

  /** A new scope has no archive. */
  lemma FreshIsUnarchived(s: State, op: Op)
    requires s.None? && !op.DoArchive?
    ensures Unarchived(Step(s, op).1) == Step(s, op).1
  {
    hide Inspect, Sum;
    if Step(s, op).1.Some? {
      var a := Step(s, op).1.value;
      assert a.live + Restored(map[]) == a.live;
    }
  }

  lemma ArchivedObserve(s: State, amount: nat, c: Reading)
    requires Sound(s) && s.Some?
    ensures var (r, t) := Observe(s, amount, c);
            var (q, u) := Observe(Unarchived(s), amount, c);
            u == Unarchived(t) && (SaysFull(q) || r == q)
  {
    hide Sum;
    if Usable(c) {
      var t := Sample(s, c).value;
      assert Merged(t) == Sample(Unarchived(s), c).value;
      MergedIsAlike(t);
      hide Spent, Held, Sum, Known, RowOf, IsBlocked, Merged;
    }
  }

  lemma ArchivedReserve(s: State, request: string, amount: nat, c1: Reading, c2: Reading, c3: Reading)
    requires Sound(s) && s.Some?
    ensures var (r, t) := Reserve(s, request, amount, c1, c2, c3);
            var (q, u) := Reserve(Unarchived(s), request, amount, c1, c2, c3);
            q == Refused(HistoryFull) || (r == q && u == Unarchived(t))
  {
    var a := s.value;
    var u := Merged(a);
    MergedIsAlike(a);
    ObstacleAlike(a, u, amount);
    AlikeRows(a, u, request);
    if !Known(a, request) {
      MergedInsert(a, request, Reserved(amount));
    }
    MergedFields(a);
    GrantsAreFresh(KnownRow(a, request), Obstacle(a, amount), a.observed, a.deadline, request, amount, c1, c2, c3);
    FullOrSame(KnownRow(a, request), Obstacle(a, amount), Obstacle(u, amount), a.observed, a.deadline,
               request, amount, c1, c2, c3);
    hide Spent, Held, Sum, Obstacle, Known, KnownRow, Restored, Alike, Decide;
  }

  lemma GrantsAreFresh(
    row: Option<Reservation>, obstacle: Option<Reason>, observed: real, deadline: real,
    request: string, amount: nat, c1: Reading, c2: Reading, c3: Reading)
    ensures Decide(row, obstacle, observed, deadline, request, amount, c1, c2, c3).grants ==> row.None?
  {
  }

  /** A full history either decides the call or does not matter. */
  lemma FullOrSame(
    row: Option<Reservation>, o1: Option<Reason>, o2: Option<Reason>, observed: real, deadline: real,
    request: string, amount: nat, c1: Reading, c2: Reading, c3: Reading)
    requires o2 == Some(HistoryFull) || o2 == o1
    requires o1 != Some(ArchiveUnavailable)
    ensures var v1 := Decide(row, o1, observed, deadline, request, amount, c1, c2, c3);
            var v2 := Decide(row, o2, observed, deadline, request, amount, c1, c2, c3);
            v2.response == Refused(HistoryFull) || v1 == v2
  {
  }

  lemma MergedFields(a: Account)
    ensures var u := Merged(a);
            && u.allowance == a.allowance && u.deadline == a.deadline && u.observed == a.observed
            && u.imported == a.imported
            && u.live == a.live + Restored(a.archive)
  {
  }

  lemma AlikeRows(a: Account, u: Account, request: string)
    requires Alike(a, u)
    ensures Known(u, request) <==> Known(a, request)
    ensures KnownRow(u, request) == KnownRow(a, request)
    ensures Known(a, request) ==> RowOf(u, request) == RowOf(a, request)
  {
  }

  lemma ObstacleAlike(a: Account, u: Account, amount: nat)
    requires Alike(a, u)
    ensures Obstacle(u, amount) == Some(HistoryFull) || Obstacle(u, amount) == Obstacle(a, amount)
    ensures Obstacle(a, amount) != Some(ArchiveUnavailable) && Obstacle(u, amount) != Some(ArchiveUnavailable)
  {
    hide Spent, IsBlocked, ArchivedSpent, Known, RowOf;
  }

  lemma MergedInsert(a: Account, request: string, row: Reservation)
    requires request !in a.archive
    ensures Merged(a).live[request := row] == a.live[request := row] + Restored(a.archive)
  {
  }

  lemma ArchivedSettle(s: State, request: string, actual: Option<nat>, reconcile: bool)
    requires Sound(s) && s.Some?
    ensures var (r, t) := Settle(s, request, actual, reconcile);
            var (q, u) := Settle(Unarchived(s), request, actual, reconcile);
            r == q && u == Unarchived(t)
  {
    hide Sum, Alike, Restored;
    var a := s.value;
    MergedIsAlike(a);
    AlikeRows(a, Merged(a), request);
    if Known(a, request) {
      var row := RowOf(a, request);
      if request in a.live {
        assert request !in a.archive;
        hide Sound, Known, RowOf;
        MergedUpdate(a, request, Outcome(row, actual));
      } else {
        assert row.Settled?;
        hide Sound, Known, RowOf;
      }
    }
  }

  /** A change of a live row is the same change of the unarchived ledger. */
  lemma MergedUpdate(a: Account, request: string, row: Reservation)
    requires request !in a.archive
    ensures Merged(a.(live := a.live[request := row])) == Merged(a).(live := Merged(a).live[request := row])
  {
    hide Restored;
    MergedInsert(a, request, row);
  }

  /** Archiving moves rows without changing the unarchived ledger. */
  lemma ArchivingMovesNothing(s: State, chosen: set<string>)
    requires Sound(s)
    ensures Unarchived(ArchiveRows(s, chosen).1) == Unarchived(s)
  {
    hide Sum, Restored, ArchivedActuals;
    if s.Some? {
      MovedRows(s.value, Moving(s.value, chosen));
      hide Moving;
    }
  }

  lemma MovedRows(a: Account, rows: map<string, Archived>)
    requires a.live.Keys !! a.archive.Keys
    requires forall k :: k in rows ==> k in a.live && a.live[k] == Settled(rows[k].amount, rows[k].actual)
    ensures (a.live - rows.Keys) + Restored(a.archive + rows) == a.live + Restored(a.archive)
  {
  }

  function Others(ops: seq<Op>): seq<Op>
  {
    if |ops| == 0 then []
    else (if ops[0].DoArchive? then [] else [ops[0]]) + Others(ops[1..])
  }

  /** The responses to everything but archiving, in order. */
  ghost function OtherResponses(s: State, ops: seq<Op>): seq<Response>
    decreases |ops|
  {
    if |ops| == 0 then []
    else (if ops[0].DoArchive? then [] else [Step(s, ops[0]).0]) + OtherResponses(Step(s, ops[0]).1, ops[1..])
  }

  /** Inserting archive calls anywhere in a run changes no other response and no usage,
      as long as the run without them is never refused for a full history. */
  lemma {:induction false} ArchivingIsInvisible(s: State, ops: seq<Op>)
    requires Sound(s)
    requires forall q :: q in Responses(Unarchived(s), Others(ops)) ==> !SaysFull(q)
    ensures OtherResponses(s, ops) == Responses(Unarchived(s), Others(ops))
    ensures Run(Unarchived(s), Others(ops)) == Unarchived(Run(s, ops))
    decreases |ops|
  {
    hide Step, Sound, SaysFull;
    if |ops| > 0 {
      var op, t := ops[0], Step(s, ops[0]).1;
      StepKeepsSound(s, op);
      if op.DoArchive? {
        assert Step(s, op) == ArchiveRows(s, op.chosen) by { StepIsArchive(s, op); }
        ArchivingMovesNothing(s, op.chosen);
        assert Others(ops) == Others(ops[1..]);
      } else {
        ArchivedStep(s, op);
        assert Others(ops)[0] == op && Others(ops)[1..] == Others(ops[1..]);
        var qs := Responses(Unarchived(s), Others(ops));
        assert qs[0] in qs;
        assert qs[1..] == Responses(Unarchived(t), Others(ops[1..]));
        assert forall q :: q in qs[1..] ==> q in qs;
      }
      ArchivingIsInvisible(t, ops[1..]);
    }
  }

  lemma StepIsArchive(s: State, op: Op)
    requires op.DoArchive?
    ensures Step(s, op) == ArchiveRows(s, op.chosen)
  {
  }

  /** Archiving conserves usage. */
  lemma ArchivingConserves(s: State, chosen: set<string>)
    requires Sound(s) && s.Some?
    ensures var t := ArchiveRows(s, chosen).1;
            t.Some? && Spent(t.value) == Spent(s.value) && Held(t.value) == Held(s.value)
  {
    ArchivingMovesNothing(s, chosen);
    ArchiveKeepsSound(s, chosen);
    MergedSums(s.value);
    MergedSums(ArchiveRows(s, chosen).1.value);
  }
}
