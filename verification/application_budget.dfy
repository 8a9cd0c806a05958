/** The ledger object of application_budget.py: each method is one transaction (two for an
    observation) on the rows of one scope, and does exactly the step of the same name. */
module ApplicationBudgetLedger {
  import opened StrictJson
  import opened Sums
  import opened BudgetLedger
  import opened BudgetLaws

  datatype Scope = Scope(run: string, owner: string, unit: string)

  /** A legacy reservation as the host lists it. */
  datatype Item = Item(request: string, row: Reservation)

  predicate Distinct(items: seq<Item>)
  {
    forall i, j :: 0 <= i < j < |items| ==> items[i].request != items[j].request
  }

  function ItemMap(items: seq<Item>): map<string, Reservation>
  {
    if |items| == 0 then map[]
    else ItemMap(items[..|items| - 1])[items[|items| - 1].request := items[|items| - 1].row]
  }

  lemma {:induction false} ItemMapKeys(items: seq<Item>)
    ensures forall k :: k in ItemMap(items) <==> exists i :: 0 <= i < |items| && items[i].request == k
  {
    if |items| > 0 {
      var rest, last := items[..|items| - 1], items[|items| - 1];
      ItemMapKeys(rest);
      forall k ensures k in ItemMap(items) <==> exists i :: 0 <= i < |items| && items[i].request == k {
        if k in ItemMap(rest) {
          var i :| 0 <= i < |rest| && rest[i].request == k;
          assert items[i].request == k;
        }
        if i :| 0 <= i < |items| && items[i].request == k {
          if i < |rest| {
            assert rest[i].request == k;
          }
        }
      }
    }
  }

  lemma {:induction false} ItemMapRows(items: seq<Item>)
    requires forall i :: 0 <= i < |items| ==> !items[i].row.Settled?
    ensures forall k :: k in ItemMap(items) ==> !ItemMap(items)[k].Settled?
    ensures |ItemMap(items)| <= |items|
  {
    if |items| > 0 {
      ItemMapRows(items[..|items| - 1]);
    }
  }

  /** Taking one row out of a table takes its part out of every sum. */
  lemma RestStep(rest: map<string, Reservation>, k: string)
    requires k in rest
    ensures Sum(Actuals(rest)) == ActualOf(rest[k]) + Sum(Actuals(rest - {k}))
    ensures Sum(Holds(rest)) == HeldOf(rest[k]) + Sum(Holds(rest - {k}))
    ensures Sum(Unknowns(rest)) == UnknownOf(rest[k]) + Sum(Unknowns(rest - {k}))
    ensures |rest - {k}| == |rest| - 1
  {
    hide Sum;
    SumWithout(Actuals(rest), k);
    assert Actuals(rest) - {k} == Actuals(rest - {k});
    SumWithout(Holds(rest), k);
    assert Holds(rest) - {k} == Holds(rest - {k});
    SumWithout(Unknowns(rest), k);
    assert Unknowns(rest) - {k} == Unknowns(rest - {k});
    assert (rest - {k}).Keys == rest.Keys - {k};
  }

  lemma EmptySums()
    ensures Sum(Actuals(map[])) == 0 && Sum(Holds(map[])) == 0 && Sum(Unknowns(map[])) == 0
  {
    assert Actuals(map[]).Keys == {} && Holds(map[]).Keys == {} && Unknowns(map[]).Keys == {};
  }

  // ---------------------------------------------------------------- order of archived rows

  method LeastOf(keys: set<string>) returns (least: string)
    requires keys != {}
    ensures least in keys && forall d :: d in keys && d != least ==> StringLess(least, d)
  {
    hide StringLess;
    least :| least in keys;
    var rest := keys - {least};
    while rest != {}
      invariant rest <= keys && least in keys && least !in rest
      invariant forall d :: d in keys && d !in rest && d != least ==> StringLess(least, d)
      decreases |rest|
    {
      var d :| d in rest;
      StringLessTotal(least, d);
      rest := rest - {d};
      if StringLess(d, least) {
        forall e | e in keys && e !in rest && e != d ensures StringLess(d, e) {
          if e != least {
            StringLessTransitive(d, least, e);
          }
        }
        least := d;
      }
    }
  }

  function SettledKeys(live: map<string, Reservation>): set<string>
  {
    set k | k in live && live[k].Settled?
  }

  /** The first `limit` settled requests in order, or all of them if there are fewer. */
  predicate FirstSettled(live: map<string, Reservation>, limit: nat, chosen: set<string>)
  {
    && chosen <= SettledKeys(live) && |chosen| <= limit
    && (|chosen| == limit || chosen == SettledKeys(live))
    && forall k, d :: k in chosen && d in SettledKeys(live) && d !in chosen ==> StringLess(k, d)
  }

  method ChooseSettled(live: map<string, Reservation>, limit: nat) returns (chosen: set<string>)
    ensures FirstSettled(live, limit, chosen)
  {
    hide StringLess;
    var left := SettledKeys(live);
    chosen := {};
    while left != {} && |chosen| < limit
      invariant chosen + left == SettledKeys(live) && chosen !! left && |chosen| <= limit
      invariant forall k, d :: k in chosen && d in left ==> StringLess(k, d)
      decreases |left|
    {
      var k := LeastOf(left);
      chosen, left := chosen + {k}, left - {k};
    }
  }

  // ---------------------------------------------------------------- the ledger object

  class ApplicationBudget {
    var scopes: map<Scope, Account>

    constructor ()
      ensures Valid() && scopes == map[]
    {
      scopes := map[];
    }

    ghost predicate Valid()
      reads this
    {
      forall scope :: scope in scopes ==> Sound(Some(scopes[scope]))
    }

    function Rows(scope: Scope): State
      reads this
    {
      if scope in scopes then Some(scopes[scope]) else None
    }

    /** The outcome of a step on one scope: its response, its new rows, nothing else. */
    twostate predicate Did(scope: Scope, step: (Response, State), r: Response)
      reads this
    {
      r == step.0 && Rows(scope) == step.1 && scopes - {scope} == old(scopes) - {scope}
    }

    method Create(scope: Scope, allowance: Amount, deadline: real, c: Reading) returns (r: Response)
      requires Valid()
      modifies this
      ensures Valid() && Did(scope, BudgetLedger.Create(old(Rows(scope)), allowance, deadline, c), r)
    {
      StepKeepsSound(Rows(scope), DoCreate(allowance, deadline, c));
      hide Sum, Sound, BudgetLedger.Inspect;
      if scope !in scopes {
        if !Usable(c) {
          return Refused(ClockUnknown);
        }
        scopes := scopes[scope := Account(allowance, deadline, c.time, map[], None, map[], None)];
      } else if (scopes[scope].allowance, scopes[scope].deadline) != (allowance as nat, deadline) {
        return Refused(TermsDiffer);
      }
      r := Inspect(scope);
    }

    method ImportLegacy(
      scope: Scope, allowance: Amount, deadline: real, spent: Amount, source: string, items: seq<Item>,
      c: Reading) returns (r: Response)
      requires Valid()
      modifies this
      ensures Valid()
      ensures if |items| > MAX_RESERVATIONS then r == Refused(TooManyReservations) && scopes == old(scopes)
              else if exists i :: 0 <= i < |items| && items[i].row.Settled?
              then r == Refused(InvalidOutcome) && scopes == old(scopes)
              else if !Distinct(items) then r == Refused(DuplicateReservation) && scopes == old(scopes)
              else Did(scope, BudgetLedger.ImportLegacy(old(Rows(scope)),
                         Manifest(allowance, deadline, spent, source, ItemMap(items)), c), r)
    {
      var collected := Collect(items);
      if collected.Refused? {
        return collected;
      }
      ItemMapRows(items);
      var manifest := Manifest(allowance, deadline, spent, source, ItemMap(items));
      hide ItemMap, Distinct;
      r := ImportManifest(scope, manifest, c);
    }

    /** Validate the listed reservations; the answer is a refusal unless all are acceptable. */
    method Collect(items: seq<Item>) returns (r: Response)
      ensures r ==
        if |items| > MAX_RESERVATIONS then Refused(TooManyReservations)
        else if exists i :: 0 <= i < |items| && items[i].row.Settled? then Refused(InvalidOutcome)
        else if !Distinct(items) then Refused(DuplicateReservation)
        else Moved(|items|)
    {
      hide ItemMap;
      if |items| > MAX_RESERVATIONS {
        return Refused(TooManyReservations);
      }
      var seen: map<string, Reservation>, index, repeated := map[], 0, false;
      assert seen == ItemMap(items[..0]) by { NoItems(items[..0]); }
      while index < |items|
        invariant 0 <= index <= |items|
        invariant seen == ItemMap(items[..index])
        invariant forall i :: 0 <= i < index ==> !items[i].row.Settled?
        invariant repeated <==> !Distinct(items[..index])
      {
        var item := items[index];
        if item.row.Settled? {
          return Refused(InvalidOutcome);
        }
        SeenBefore(items, index);
        repeated := repeated || item.request in seen;
        seen := seen[item.request := item.row];
        index := index + 1;
      }
      assert items[..index] == items;
      return if repeated then Refused(DuplicateReservation) else Moved(|items|);
    }

    method ImportManifest(scope: Scope, manifest: Manifest, c: Reading) returns (r: Response)
      requires Valid() && |manifest.items| <= MAX_RESERVATIONS
      requires forall k :: k in manifest.items ==> !manifest.items[k].Settled?
      modifies this
      ensures Valid() && Did(scope, BudgetLedger.ImportLegacy(old(Rows(scope)), manifest, c), r)
    {
      StepKeepsSound(Rows(scope), DoImport(manifest, c));
      hide Sum, Sound, BudgetLedger.Inspect;
      if scope in scopes {
        if scopes[scope].imported.Some? {
          if scopes[scope].imported.value != manifest {
            return Refused(ImportDiffers);
          }
        } else {
          return Refused(ExistsWithoutImport);
        }
      } else {
        if !Usable(c) {
          return Refused(ClockUnknown);
        }
        scopes := scopes[scope := Account(manifest.allowance, manifest.deadline, c.time, manifest.items,
                                          Some(manifest), map[], None)];
      }
      r := Inspect(scope);
    }

    method Reserve(
      scope: Scope, request: string, amount: Amount, c1: Reading, c2: Reading, c3: Reading)
      returns (r: Response)
      requires Valid()
      modifies this
      ensures Valid() && Did(scope, BudgetLedger.Reserve(old(Rows(scope)), request, amount, c1, c2, c3), r)
    {
      StepKeepsSound(Rows(scope), DoReserve(request, amount, c1, c2, c3));
      hide Sum, Sound, Obstacle, Known, RowOf;
      if scope !in scopes {
        return Refused(BudgetUnknown);
      }
      var a := scopes[scope];
      var answer, after := ReserveRows(a, request, amount, c1, c2, c3);
      hide Decide, KnownRow;
      r := answer;
      scopes := scopes[scope := after];
    }

    method ReserveRows(a: Account, request: string, amount: nat, c1: Reading, c2: Reading, c3: Reading)
      returns (r: Response, after: Account)
      ensures (r, Some(after)) == BudgetLedger.Reserve(Some(a), request, amount, c1, c2, c3)
    {
      hide Sum, Obstacle, KnownRow;
      var row := KnownRow(a, request);
      after := a;
      if row.Some? {
        if row.value.amount != amount {
          return Refused(AmountDiffers), a;
        }
        return Receipt(request, row.value, false), a;
      }
      if !Usable(c1) {
        return Refused(ClockUnknown), a;
      }
      after := after.(observed := Later(c1, after.observed));
      if after.observed >= a.deadline {
        return Refused(DeadlineElapsed), after;
      }
      var obstacle := FindObstacle(a, amount);
      if obstacle == Some(ArchiveUnavailable) {
        return Refused(ArchiveUnavailable), a;
      }
      if obstacle.Some? {
        return Refused(obstacle.value), after;
      }
      if !Usable(c2) {
        return Refused(ClockUnknown), a;
      }
      after := after.(observed := Later(c2, after.observed));
      if after.observed >= a.deadline {
        return Refused(DeadlineElapsed), after;
      }
      after := after.(live := after.live[request := Reserved(amount)]);
      if !Usable(c3) {
        return Refused(ClockUnknown), a;
      }
      after := after.(observed := Later(c3, after.observed));
      if after.observed >= a.deadline {
        after := after.(live := a.live);
        return Refused(DeadlineElapsed), after;
      }
      return Receipt(request, Reserved(amount), true), after;
    }

    /** The scan of a reserve call: add up usage, stopping at the first open reservation. */
    method FindObstacle(a: Account, amount: nat) returns (obstacle: Option<Reason>)
      ensures obstacle == Obstacle(a, amount)
    {
      hide Sum;
      if ArchivedSpent(a).None? {
        return Some(ArchiveUnavailable);
      }
      EmptySums();
      var used := ImportedSpent(a) + ArchivedSpent(a).value;
      var count, rest := 0, a.live;
      while rest.Keys != {}
        invariant forall k :: k in rest ==> k in a.live && rest[k] == a.live[k]
        invariant forall k :: k in a.live && k !in rest ==> a.live[k].Settled?
        invariant used + Sum(Actuals(rest)) == Spent(a)
        invariant count + |rest| == |a.live|
        decreases |rest|
      {
        var k :| k in rest.Keys;
        RestStep(rest, k);
        count := count + 1;
        if !rest[k].Settled? {
          return Some(Blocked);
        }
        used := used + rest[k].actual;
        rest := rest - {k};
      }
      assert rest == map[] && !IsBlocked(a);
      if count >= MAX_RESERVATIONS {
        return Some(HistoryFull);
      }
      if used + amount > a.allowance {
        return Some(Exhausted);
      }
      return None;
    }

    method Settle(scope: Scope, request: string, actual: Option<nat>, reconcile: bool) returns (r: Response)
      requires Valid() && (reconcile ==> actual.Some?)
      modifies this
      ensures Valid() && Did(scope, BudgetLedger.Settle(old(Rows(scope)), request, actual, reconcile), r)
    {
      SettleKeepsSound(Rows(scope), request, actual, reconcile);
      hide Sum, Sound;
      if scope !in scopes || KnownRow(scopes[scope], request).None? {
        return Refused(ReservationUnknown);
      }
      var a := scopes[scope];
      var row := KnownRow(a, request).value;
      var target := Outcome(row, actual);
      if row == target {
        return Receipt(request, row, false);
      }
      if row.Settled? || (row.Unknown? && !reconcile) || (reconcile && !row.Unknown?) {
        return Refused(OutcomeConflicts);
      }
      scopes := scopes[scope := a.(live := a.live[request := target])];
      return Receipt(request, target, false);
    }

    /** Add up the live rows of a scope. */
    method Tally(a: Account) returns (spent: nat, held: nat, unknown: nat, pending: nat)
      requires ArchivedSpent(a).Some?
      ensures spent == Spent(a) && held == Held(a) && unknown == Sum(Unknowns(a.live))
      ensures pending > 0 <==> IsBlocked(a)
    {
      hide Sum;
      EmptySums();
      spent := ImportedSpent(a) + ArchivedSpent(a).value;
      held, unknown, pending := 0, 0, 0;
      var rest := a.live;
      while rest.Keys != {}
        invariant forall k :: k in rest ==> k in a.live && rest[k] == a.live[k]
        invariant pending > 0 <==> exists k :: k in a.live && k !in rest && !a.live[k].Settled?
        invariant spent + Sum(Actuals(rest)) == Spent(a)
        invariant held + Sum(Holds(rest)) == Held(a)
        invariant unknown + Sum(Unknowns(rest)) == Sum(Unknowns(a.live))
        decreases |rest|
      {
        var k :| k in rest.Keys;
        RestStep(rest, k);
        if rest[k].Settled? {
          spent := spent + rest[k].actual;
        } else {
          held := held + rest[k].amount;
          unknown := unknown + UnknownOf(rest[k]);
          pending := pending + 1;
          assert k in a.live && !a.live[k].Settled?;
        }
        rest := rest - {k};
      }
      assert rest == map[];
    }

    method Inspect(scope: Scope) returns (r: Response)
      ensures r == BudgetLedger.Inspect(Rows(scope))
    {
      hide Sum;
      if scope !in scopes {
        return Refused(BudgetUnknown);
      }
      var a := scopes[scope];
      if ArchivedSpent(a).None? {
        return Refused(ArchiveUnavailable);
      }
      var spent, held, unknown, pending := Tally(a);
      return Report(a.allowance, a.deadline, spent, held, unknown, pending > 0,
                    if a.imported.Some? then Some(a.imported.value.source) else None,
                    if unknown > 0 then None
                    else Some(if a.allowance <= spent + held then 0 else a.allowance - spent - held));
    }

    method Observe(scope: Scope, amount: Amount, c: Reading) returns (r: Response)
      requires Valid()
      modifies this
      ensures Valid() && Did(scope, BudgetLedger.Observe(old(Rows(scope)), amount, c), r)
    {
      StepKeepsSound(Rows(scope), DoObserve(amount, c));
      hide Sum, Sound, Judge;
      if scope !in scopes || !Usable(c) {
        return NoObservation;
      }
      var now := Later(c, scopes[scope].observed);
      scopes := scopes[scope := scopes[scope].(observed := now)];
      var a := scopes[scope];
      if a.observed < now {
        return NoObservation;
      }
      r := JudgeRows(a, amount);
    }

    /** The second transaction of an observation. */
    method JudgeRows(a: Account, amount: nat) returns (r: Response)
      ensures r == Judge(Some(a), amount)
    {
      hide Sum, Spent, Held, IsBlocked;
      if ArchivedSpent(a).None? {
        return NoObservation;
      }
      var spent, held, unknown, pending := Tally(a);
      var status :=
        if a.observed >= a.deadline then Expired
        else if unknown > 0 then UnknownUsage
        else if pending > 0 then PendingUsage
        else if |a.live| >= MAX_RESERVATIONS then CapacityExhausted
        else if spent + amount > a.allowance then NoAllowance
        else Available;
      return Observation(status, a.observed, spent, held);
    }

    /** Move up to `limit` settled rows, the first in request order, to the archive. */
    method ArchiveSettled(scope: Scope, limit: int) returns (r: Response, ghost chosen: set<string>)
      requires Valid()
      modifies this
      ensures Valid()
      ensures !(1 <= limit <= 500) ==> r == Refused(BadLimit) && scopes == old(scopes)
      ensures 1 <= limit <= 500 ==>
        && Did(scope, BudgetLedger.ArchiveRows(old(Rows(scope)), chosen), r)
        && (old(Rows(scope)).Some? && ArchivedSpent(old(Rows(scope)).value).Some? ==>
              FirstSettled(old(Rows(scope)).value.live, limit, chosen))
    {
      chosen := {};
      if !(1 <= limit <= 500) {
        return Refused(BadLimit), chosen;
      }
      if scope !in scopes {
        return Refused(BudgetUnknown), chosen;
      }
      var a := scopes[scope];
      if ArchivedSpent(a).None? {
        return Refused(ArchiveUnavailable), chosen;
      }
      var requests := ChooseSettled(a.live, limit);
      chosen := requests;
      ArchiveKeepsSound(Some(a), chosen);
      var answer, after := Archive(a, requests);
      r := answer;
      hide Sound, FirstSettled, ArchiveRows;
      scopes := scopes[scope := after];
    }

    method Archive(a: Account, requests: set<string>) returns (r: Response, after: Account)
      requires ArchivedSpent(a).Some?
      ensures (r, Some(after)) == ArchiveRows(Some(a), requests)
    {
      hide Sum, Moving, ArchivedActuals, ArchiveRows;
      NoRowsMoved(a, requests);
      var rows := Moving(a, requests);
      var moved := TotalOf(rows);
      var total := ArchivedSpent(a).value + moved;
      if total >= TOTAL_BOUND {
        return Refused(ArchiveTooLarge), a;
      }
      if rows == map[] {
        return Moved(0), a;
      }
      var live, archive := MoveRows(a, rows);
      RowsMoved(a, requests, rows, live, archive, total);
      return Moved(|rows|), a.(live := live, archive := archive, total := Some(total));
    }

    /** The first loop over the chosen rows adds up their usage. */
    method TotalOf(rows: map<string, Archived>) returns (total: nat)
      ensures total == Sum(ArchivedActuals(rows))
    {
      hide Sum;
      total := 0;
      var rest := rows;
      while rest.Keys != {}
        invariant forall k :: k in rest ==> k in rows && rest[k] == rows[k]
        invariant total + Sum(ArchivedActuals(rest)) == Sum(ArchivedActuals(rows))
        decreases |rest|
      {
        var k :| k in rest.Keys;
        SumWithout(ArchivedActuals(rest), k);
        assert ArchivedActuals(rest) - {k} == ArchivedActuals(rest - {k});
        assert (rest - {k}).Keys == rest.Keys - {k};
        total := total + rest[k].actual;
        rest := rest - {k};
      }
      NothingArchived(rest);
    }

    /** The second loop inserts each row into the archive and deletes it from the table. */
    method MoveRows(a: Account, rows: map<string, Archived>)
      returns (live: map<string, Reservation>, archive: map<string, Archived>)
      ensures live == a.live - rows.Keys && archive == a.archive + rows
    {
      live, archive := a.live, a.archive;
      var done: set<string> := {};
      NothingMoved(a, rows);
      hide Part;
      while done != rows.Keys
        invariant done <= rows.Keys
        invariant live == a.live - done && archive == a.archive + Part(rows, done)
        decreases |rows.Keys - done|
      {
        var k :| k in rows.Keys - done;
        MovedOne(a, rows, done, k);
        assert rows.Keys - (done + {k}) == (rows.Keys - done) - {k};
        archive := archive[k := rows[k]];
        live := live - {k};
        done := done + {k};
      }
      AllMoved(rows);
    }
  }

  /** Nothing moves where the total would be too large or nothing was chosen. */
  lemma NoRowsMoved(a: Account, requests: set<string>)
    requires ArchivedSpent(a).Some?
    ensures var rows := Moving(a, requests);
            var total := ArchivedSpent(a).value + Sum(ArchivedActuals(rows));
            && (total >= TOTAL_BOUND ==> ArchiveRows(Some(a), requests) == (Refused(ArchiveTooLarge), Some(a)))
            && (total < TOTAL_BOUND && rows == map[] ==> ArchiveRows(Some(a), requests) == (Moved(0), Some(a)))
  {
    hide Sum, Moving, ArchivedActuals;
  }

  lemma RowsMoved(
    a: Account, requests: set<string>, rows: map<string, Archived>,
    live: map<string, Reservation>, archive: map<string, Archived>, total: nat)
    requires ArchivedSpent(a).Some? && rows == Moving(a, requests) != map[]
    requires total == ArchivedSpent(a).value + Sum(ArchivedActuals(rows)) < TOTAL_BOUND
    requires live == a.live - rows.Keys && archive == a.archive + rows
    ensures ArchiveRows(Some(a), requests) == (Moved(|rows|), Some(a.(live := live, archive := archive, total := Some(total))))
  {
    hide Sum, Moving, ArchivedActuals, ArchivedSpent;
  }

  function Part(rows: map<string, Archived>, keys: set<string>): map<string, Archived>
  {
    map k | k in rows && k in keys :: rows[k]
  }

  lemma NothingMoved(a: Account, rows: map<string, Archived>)
    ensures a.live - {} == a.live && a.archive + Part(rows, {}) == a.archive
  {
    assert Part(rows, {}) == map[];
  }

  lemma AllMoved(rows: map<string, Archived>)
    ensures Part(rows, rows.Keys) == rows
  {
  }

  lemma MovedOne(a: Account, rows: map<string, Archived>, done: set<string>, k: string)
    requires k in rows && k !in done
    ensures (a.live - done) - {k} == a.live - (done + {k})
    ensures (a.archive + Part(rows, done))[k := rows[k]] == a.archive + Part(rows, done + {k})
  {
    assert Part(rows, done + {k}) == Part(rows, done)[k := rows[k]];
  }

  lemma NoItems(items: seq<Item>)
    requires |items| == 0
    ensures ItemMap(items) == map[]
  {
  }

  lemma SeenBefore(items: seq<Item>, index: nat)
    requires index < |items|
    ensures Distinct(items[..index + 1]) <==>
      Distinct(items[..index]) && items[index].request !in ItemMap(items[..index])
    ensures ItemMap(items[..index + 1]) == ItemMap(items[..index])[items[index].request := items[index].row]
  {
    assert items[..index + 1][..index] == items[..index];
    hide ItemMap;
    var done, more := items[..index], items[..index + 1];
    ItemMapKeys(done);
    if items[index].request in ItemMap(done) {
      var i :| 0 <= i < |done| && done[i].request == items[index].request;
      assert more[i].request == more[index].request;
    } else {
      assert forall i :: 0 <= i < |done| ==> done[i].request != items[index].request;
      assert forall i :: 0 <= i < |done| ==> more[i] == done[i];
    }
    if Distinct(more) {
      assert forall i :: 0 <= i < |done| ==> done[i] == more[i];
    }
  }
}
