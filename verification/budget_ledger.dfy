/** The durable budget ledger of application_budget.py and the observation of
    application_budget_status.py, as atomic steps on the rows of one scope. */
module BudgetLedger {
  import opened StrictJson
  import opened Sums

  const MAX_RESERVATIONS := 10_000
  const MAX_AMOUNT := 0x7FFF_FFFF_FFFF_FFFF
  /** An archived total is stored as a text of at most 128 digits. */
  const TOTAL_BOUND :=
    1_00000000_00000000_00000000_00000000_00000000_00000000_00000000_00000000_00000000_00000000_00000000_00000000_00000000_00000000_00000000_00000000

  /** A nonnegative SQLite integer. */
  type Amount = n: int | 0 <= n <= MAX_AMOUNT

  /** A row of the reservation table. */
  datatype Reservation =
    | Reserved(amount: nat)
    | Unknown(amount: nat)
    | Settled(amount: nat, actual: nat)

  /** A row of the archive table. */
  datatype Archived = Archived(amount: nat, actual: nat)

  /** The manifest of a legacy import, with its outstanding reservations by request. */
  datatype Manifest = Manifest(
    allowance: nat, deadline: real, spent: nat, source: string, items: map<string, Reservation>)

  /** All rows of one scope. `total` is the row of archived usage, absent before the first
      archiving. */
  datatype Account = Account(
    allowance: nat, deadline: real, observed: real,
    live: map<string, Reservation>,
    imported: Option<Manifest>,
    archive: map<string, Archived>,
    total: Option<nat>)

  type State = Option<Account>

  /** One reading of the host clock, which may be unusable and may go backwards. */
  datatype Reading = At(time: real) | Bad

  predicate Usable(c: Reading) { c.At? && c.time >= 0.0 }

  function Later(c: Reading, observed: real): real
    requires Usable(c)
  {
    if c.time < observed then observed else c.time
  }

  datatype Reason =
    | BudgetUnknown | TermsDiffer | ClockUnknown | ImportDiffers | ExistsWithoutImport
    | DuplicateReservation | TooManyReservations | InvalidOutcome
    | AmountDiffers | DeadlineElapsed | Blocked | HistoryFull | Exhausted | ArchiveUnavailable
    | ReservationUnknown | OutcomeConflicts | ArchiveTooLarge | BadLimit

  datatype Status = Expired | UnknownUsage | PendingUsage | CapacityExhausted | NoAllowance | Available

  datatype Response =
    | Receipt(request: string, row: Reservation, authorized: bool)
    | Report(allowance: nat, deadline: real, spent: nat, reserved: nat, unknownCount: nat,
             blocked: bool, source: Option<string>, available: Option<nat>)
    | Observation(status: Status, now: real, spentSeen: nat, reservedSeen: nat)
    | NoObservation
    | Moved(count: nat)
    | Refused(reason: Reason)

  // ---------------------------------------------------------------- sums over rows

  function ActualOf(row: Reservation): nat { if row.Settled? then row.actual else 0 }
  function HeldOf(row: Reservation): nat { if row.Settled? then 0 else row.amount }
  function UnknownOf(row: Reservation): nat { if row.Unknown? then 1 else 0 }

  function Actuals(live: map<string, Reservation>): map<string, nat> { map k | k in live :: ActualOf(live[k]) }
  function Holds(live: map<string, Reservation>): map<string, nat> { map k | k in live :: HeldOf(live[k]) }
  function Unknowns(live: map<string, Reservation>): map<string, nat> { map k | k in live :: UnknownOf(live[k]) }
  function ArchivedActuals(archive: map<string, Archived>): map<string, nat>
  {
    map k | k in archive :: archive[k].actual
  }

  /** Some reservation has no settled outcome yet. */
  predicate IsBlocked(a: Account)
  {
    exists k :: k in a.live && !a.live[k].Settled?
  }

  function ImportedSpent(a: Account): nat
  {
    if a.imported.Some? then a.imported.value.spent else 0
  }

  /** The archived usage, or nothing when archive rows exist without their total. */
  function ArchivedSpent(a: Account): Option<nat>
  {
    if a.total.Some? then a.total else if a.archive != map[] then None else Some(0)
  }

  ghost function Spent(a: Account): nat
  {
    ImportedSpent(a) + ArchivedSpent(a).GetOr(0) + Sum(Actuals(a.live))
  }

  ghost function Held(a: Account): nat { Sum(Holds(a.live)) }

  /** A request id that was ever recorded, in either table. */
  predicate Known(a: Account, request: string)
  {
    request in a.live || request in a.archive
  }

  /** The row of a request, from the live table or as a settled row of the archive. */
  function RowOf(a: Account, request: string): Reservation
    requires Known(a, request)
  {
    if request in a.live then a.live[request]
    else Settled(a.archive[request].amount, a.archive[request].actual)
  }

  // ---------------------------------------------------------------- steps

  ghost function Inspect(s: State): Response
  {
    if s.None? then Refused(BudgetUnknown)
    else
      var a := s.value;
      if ArchivedSpent(a).None? then Refused(ArchiveUnavailable)
      else
        var unknown := Sum(Unknowns(a.live));
        Report(a.allowance, a.deadline, Spent(a), Held(a), unknown, IsBlocked(a),
               if a.imported.Some? then Some(a.imported.value.source) else None,
               if unknown > 0 then None
               else Some(if a.allowance <= Spent(a) + Held(a) then 0 else a.allowance - Spent(a) - Held(a)))
  }

  ghost function Create(s: State, allowance: nat, deadline: real, c: Reading): (Response, State)
  {
    if s.None? then
      if !Usable(c) then (Refused(ClockUnknown), s)
      else
        var a := Some(Account(allowance, deadline, c.time, map[], None, map[], None));
        (Inspect(a), a)
    else if (s.value.allowance, s.value.deadline) != (allowance, deadline) then (Refused(TermsDiffer), s)
    else (Inspect(s), s)
  }

  ghost function ImportLegacy(s: State, manifest: Manifest, c: Reading): (Response, State)
  {
    if |manifest.items| > MAX_RESERVATIONS then (Refused(TooManyReservations), s)
    else if exists k :: k in manifest.items && manifest.items[k].Settled? then (Refused(InvalidOutcome), s)
    else if s.Some? then
      if s.value.imported == Some(manifest) then (Inspect(s), s)
      else if s.value.imported.Some? then (Refused(ImportDiffers), s)
      else (Refused(ExistsWithoutImport), s)
    else if !Usable(c) then (Refused(ClockUnknown), s)
    else
      var a := Some(Account(manifest.allowance, manifest.deadline, c.time, manifest.items,
                            Some(manifest), map[], None));
      (Inspect(a), a)
  }

  /** Why a fresh request would not be granted, looking at the rows and the watermark only.
      The order is the order of the tests in the source. */
  ghost function Obstacle(a: Account, amount: nat): Option<Reason>
  {
    if ArchivedSpent(a).None? then Some(ArchiveUnavailable)
    else if IsBlocked(a) then Some(Blocked)
    else if |a.live| >= MAX_RESERVATIONS then Some(HistoryFull)
    else if Spent(a) + amount > a.allowance then Some(Exhausted)
    else None
  }

  /** The answer to a reserve call, the watermark it commits, and whether it inserts a row. */
  datatype Verdict = Verdict(response: Response, observed: real, grants: bool)

  /** Decide a reserve call from what it reads: the row of the request if it is known, the
      obstacle to a fresh one, the watermark, the deadline and three clock readings. A
      refusal after a usable reading keeps the advanced watermark, except that an unusable
      later reading or a missing total rolls the whole transaction back. */
  function Decide(
    row: Option<Reservation>, obstacle: Option<Reason>, observed: real, deadline: real,
    request: string, amount: nat, c1: Reading, c2: Reading, c3: Reading): Verdict
  {
    if row.Some? then
      if row.value.amount != amount then Verdict(Refused(AmountDiffers), observed, false)
      else Verdict(Receipt(request, row.value, false), observed, false)
    else if !Usable(c1) then Verdict(Refused(ClockUnknown), observed, false)
    else
      var now1 := Later(c1, observed);
      if now1 >= deadline then Verdict(Refused(DeadlineElapsed), now1, false)
      else if obstacle == Some(ArchiveUnavailable) then Verdict(Refused(ArchiveUnavailable), observed, false)
      else if obstacle.Some? then Verdict(Refused(obstacle.value), now1, false)
      else if !Usable(c2) then Verdict(Refused(ClockUnknown), observed, false)
      else
        var now2 := Later(c2, now1);
        if now2 >= deadline then Verdict(Refused(DeadlineElapsed), now2, false)
        else if !Usable(c3) then Verdict(Refused(ClockUnknown), observed, false)
        else
          var now3 := Later(c3, now2);
          if now3 >= deadline then Verdict(Refused(DeadlineElapsed), now3, false)
          else Verdict(Receipt(request, Reserved(amount), true), now3, true)
  }

  function KnownRow(a: Account, request: string): Option<Reservation>
  {
    if Known(a, request) then Some(RowOf(a, request)) else None
  }

  ghost function Reserve(s: State, request: string, amount: nat, c1: Reading, c2: Reading, c3: Reading)
    : (Response, State)
  {
    if s.None? then (Refused(BudgetUnknown), s)
    else
      var a := s.value;
      var v := Decide(KnownRow(a, request), Obstacle(a, amount), a.observed, a.deadline,
                      request, amount, c1, c2, c3);
      (v.response,
       Some(a.(observed := v.observed,
               live := if v.grants then a.live[request := Reserved(amount)] else a.live)))
  }

  function Outcome(row: Reservation, actual: Option<nat>): Reservation
  {
    if actual.None? then Unknown(row.amount) else Settled(row.amount, actual.value)
  }

  /** Settle (`reconcile` false) or reconcile (`reconcile` true) one reservation. */
  ghost function Settle(s: State, request: string, actual: Option<nat>, reconcile: bool): (Response, State)
  {
    if s.None? || !Known(s.value, request) then (Refused(ReservationUnknown), s)
    else
      var a, row := s.value, RowOf(s.value, request);
      if row == Outcome(row, actual) then (Receipt(request, row, false), s)
      else if row.Settled? || (row.Unknown? && !reconcile) || (reconcile && !row.Unknown?)
      then (Refused(OutcomeConflicts), s)
      else (Receipt(request, Outcome(row, actual), false),
            Some(a.(live := a.live[request := Outcome(row, actual)])))
  }

  /** Move some settled rows to the archive. */
  function Moving(a: Account, chosen: set<string>): map<string, Archived>
  {
    map k | k in chosen && k in a.live && a.live[k].Settled? :: Archived(a.live[k].amount, a.live[k].actual)
  }

  ghost function ArchiveRows(s: State, chosen: set<string>): (Response, State)
  {
    if s.None? then (Refused(BudgetUnknown), s)
    else
      var a := s.value;
      var rows := Moving(a, chosen);
      if ArchivedSpent(a).None? then (Refused(ArchiveUnavailable), s)
      else
        var total := ArchivedSpent(a).value + Sum(ArchivedActuals(rows));
        if total >= TOTAL_BOUND then (Refused(ArchiveTooLarge), s)
        else if rows == map[] then (Moved(0), s)
        else (Moved(|rows|), Some(a.(live := a.live - rows.Keys, archive := a.archive + rows, total := Some(total))))
  }

  /** First transaction of an observation: advance the watermark. */
  function Sample(s: State, c: Reading): State
  {
    if s.None? || !Usable(c) then s else Some(s.value.(observed := Later(c, s.value.observed)))
  }

  /** Second transaction of an observation: judge the rows as they are then. */
  ghost function Judge(s: State, amount: nat): Response
  {
    if s.None? || ArchivedSpent(s.value).None? then NoObservation
    else
      var a := s.value;
      var status :=
        if a.observed >= a.deadline then Expired
        else if Sum(Unknowns(a.live)) > 0 then UnknownUsage
        else if IsBlocked(a) then PendingUsage
        else if |a.live| >= MAX_RESERVATIONS then CapacityExhausted
        else if Spent(a) + amount > a.allowance then NoAllowance
        else Available;
      Observation(status, a.observed, Spent(a), Held(a))
  }

  ghost function Observe(s: State, amount: nat, c: Reading): (Response, State)
  {
    if s.None? || !Usable(c) then (NoObservation, s) else (Judge(Sample(s, c), amount), Sample(s, c))
  }

  /** Every public operation on a scope, with the clock readings it would take. */
  datatype Op =
    | DoCreate(allowance: nat, deadline: real, c: Reading)
    | DoImport(manifest: Manifest, c: Reading)
    | DoReserve(request: string, amount: nat, c1: Reading, c2: Reading, c3: Reading)
    | DoSettle(request: string, actual: Option<nat>)
    | DoReconcile(request: string, final: nat)
    | DoInspect
    | DoObserve(amount: nat, c: Reading)
    | DoArchive(chosen: set<string>)

  ghost function Step(s: State, op: Op): (Response, State)
  {
    match op
    case DoCreate(allowance, deadline, c) => Create(s, allowance, deadline, c)
    case DoImport(manifest, c) => ImportLegacy(s, manifest, c)
    case DoReserve(request, amount, c1, c2, c3) => Reserve(s, request, amount, c1, c2, c3)
    case DoSettle(request, actual) => Settle(s, request, actual, false)
    case DoReconcile(request, final) => Settle(s, request, Some(final), true)
    case DoInspect => (Inspect(s), s)
    case DoObserve(amount, c) => Observe(s, amount, c)
    case DoArchive(chosen) => ArchiveRows(s, chosen)
  }

  ghost function Run(s: State, ops: seq<Op>): State
    decreases |ops|
  {
    if |ops| == 0 then s else Run(Step(s, ops[0]).1, ops[1..])
  }

  /** The responses of a run, in order. */
  ghost function Responses(s: State, ops: seq<Op>): (rs: seq<Response>)
    ensures |rs| == |ops|
    decreases |ops|
  {
    if |ops| == 0 then [] else [Step(s, ops[0]).0] + Responses(Step(s, ops[0]).1, ops[1..])
  }

  // ---------------------------------------------------------------- invariant

  /** What every reachable scope satisfies. */
  ghost predicate Sound(s: State)
  {
    s.Some? ==>
      var a := s.value;
      && |a.live| <= MAX_RESERVATIONS
      && a.live.Keys !! a.archive.Keys
      && a.observed >= 0.0
      && (a.imported.Some? ==> forall k :: k in a.imported.value.items ==> !a.imported.value.items[k].Settled?)
      && (a.total.None? ==> a.archive == map[])
      && (a.total.Some? ==> a.total.value == Sum(ArchivedActuals(a.archive)))
  }
}
