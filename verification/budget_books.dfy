/** The ledger against the books of an onlooker who sees only the calls and their responses: what
    it reports is what was imported, granted and settled, and it grants only what the books allow. */
module BudgetBooks {
  import opened StrictJson
  import opened Sums
  import opened BudgetLedger
  import opened BudgetLaws
  import opened BudgetLimits

  // ---------------------------------------------------------------- the books

  /** The terms once the scope exists, what had been used before it, and for each request its
      final usage or its reserved amount. */
  datatype Book = Book(
    started: bool, allowance: nat, deadline: real, manifest: Option<Manifest>, imported: nat,
    actuals: map<string, nat>, outstanding: map<string, nat>, unknown: set<string>)

  const EMPTY := Book(false, 0, 0.0, None, 0, map[], map[], {})

  function Amounts(items: map<string, Reservation>): map<string, nat> { map k | k in items :: items[k].amount }

  /** A request has its final usage. */
  function Closing(b: Book, request: string, actual: nat): Book
  {
    b.(actuals := b.actuals[request := actual], outstanding := b.outstanding - {request}, unknown := b.unknown - {request})
  }

  /** One call and its response are entered. */
  function Entered(b: Book, op: Op, r: Response): Book
  {
    match op
    case DoCreate(allowance, deadline, _) =>
      if b.started || !r.Report? then b else EMPTY.(started := true, allowance := allowance, deadline := deadline)
    case DoImport(m, _) =>
      if b.started || !r.Report? then b
      else
        Book(true, m.allowance, m.deadline, Some(m), m.spent, map[], Amounts(m.items),
             set k | k in m.items && m.items[k].Unknown?)
    case DoReserve(request, amount, _, _, _) =>
      if IsGrant(r) then b.(outstanding := b.outstanding[request := amount]) else b
    case DoSettle(request, actual) =>
      if !r.Receipt? then b
      else if actual.Some? then Closing(b, request, actual.value)
      else b.(unknown := b.unknown + {request})
    case DoReconcile(request, final) => if r.Receipt? then Closing(b, request, final) else b
    case _ => b
  }

  function Kept(b: Book, ops: seq<Op>, rs: seq<Response>): Book
    requires |ops| == |rs|
    decreases |ops|
  {
    if ops == [] then b else Kept(Entered(b, ops[0], rs[0]), ops[1..], rs[1..])
  }

  /** The usage that the books know of. */
  ghost function Used(b: Book): nat { b.imported + Sum(b.actuals) }

  /** A report, an observation and the row of a receipt say what the books say. */
  ghost predicate Balanced(b: Book, r: Response)
  {
    match r
    case Report(allowance, deadline, spent, reserved, unknownCount, blocked, source, available) =>
      && allowance == b.allowance && deadline == b.deadline 
      && source == (if b.manifest.Some? then Some(b.manifest.value.source) else None)
      && spent == Used(b) && reserved == Sum(b.outstanding) && unknownCount == |b.unknown|
      && (blocked <==> b.outstanding != map[])
      && available == (if b.unknown != {} then None
                       else if b.allowance <= Used(b) + Sum(b.outstanding) then Some(0)
                       else Some(b.allowance - Used(b) - Sum(b.outstanding)))
    case Observation(_, _, spentSeen, reservedSeen) => spentSeen == Used(b) && reservedSeen == Sum(b.outstanding)
    case Receipt(request, row, _) => Posted(b, request, Some(row))
    case _ => true
  }

  // ---------------------------------------------------------------- the rows agree with the books

  predicate Posted(b: Book, k: string, row: Option<Reservation>)
  {
    match row
    case None => k !in b.actuals && k !in b.outstanding && k !in b.unknown
    case Some(Reserved(amount)) =>
      k !in b.actuals && k in b.outstanding && b.outstanding[k] == amount && k !in b.unknown
    case Some(Unknown(amount)) =>
      k !in b.actuals && k in b.outstanding && b.outstanding[k] == amount && k in b.unknown
    case Some(Settled(_, actual)) =>
      k in b.actuals && b.actuals[k] == actual && k !in b.outstanding && k !in b.unknown
  }

  ghost predicate Matches(s: State, b: Book)
  {
    if s.None? then b == EMPTY
    else
      var a := s.value;
      && b.started && b.allowance == a.allowance && b.deadline == a.deadline && b.imported == ImportedSpent(a)
      && b.manifest == a.imported
      && forall k :: Posted(b, k, KnownRow(a, k))
  }

  lemma {:induction false} SumOnly(m: map<string, nat>, n: map<string, nat>)
    requires n.Keys <= m.Keys && (forall k :: k in n ==> n[k] == m[k]) && (forall k :: k in m && k !in n ==> m[k] == 0)
    ensures Sum(m) == Sum(n)
    decreases m.Keys
  {
    if m.Keys == {} {
      assert m == n;
    } else {
      var k :| k in m.Keys;
      SumWithout(m, k);
      SumOnly(m - {k}, n - {k});
      if k in n {
        SumWithout(n, k);
      } else {
        assert n - {k} == n;
      }
    }
  }

  lemma {:induction false} SumOfOnes(s: set<string>)
    ensures Sum(map k | k in s :: 1) == |s|
    decreases s
  {
    var m: map<string, nat> := map k | k in s :: 1;
    if s == {} {
      assert m.Keys == {};
    } else {
      var x :| x in s;
      SumWithout(m, x);
      assert m - {x} == map k | k in s - {x} :: 1;
      SumOfOnes(s - {x});
    }
  }

  lemma MatchedSums(a: Account, b: Book)
    requires Sound(Some(a)) && Matches(Some(a), b)
    ensures Spent(a) == Used(b) && Held(a) == Sum(b.outstanding) && Sum(Unknowns(a.live)) == |b.unknown|
    ensures (IsBlocked(a) <==> b.outstanding != map[]) && ArchivedSpent(a).Some?
  {
    hide *;
    MergedIsAlike(a);
    MergedPosted(a, b);
    BlockedHolds(a, b);
    RowSums(Merged(a).live, b);
    AsMerged(a, b);
  }

  /** What the rows say of the books. */
  ghost predicate Carries(rows: map<string, Reservation>, b: Book)
  {
    && (forall k :: k in b.actuals ==> k in rows && ActualOf(rows[k]) == b.actuals[k])
    && (forall k :: k in rows && k !in b.actuals ==> ActualOf(rows[k]) == 0)
    && (forall k :: k in b.outstanding ==> k in rows && HeldOf(rows[k]) == b.outstanding[k])
    && (forall k :: k in rows && k !in b.outstanding ==> HeldOf(rows[k]) == 0)
    && (forall k :: k in b.unknown ==> k in rows && UnknownOf(rows[k]) == 1)
    && (forall k :: k in rows && k !in b.unknown ==> UnknownOf(rows[k]) == 0)
  }

  lemma RowSums(rows: map<string, Reservation>, b: Book)
    requires Carries(rows, b)
    ensures Sum(Actuals(rows)) == Sum(b.actuals) && Sum(Holds(rows)) == Sum(b.outstanding) && Sum(Unknowns(rows)) == |b.unknown|
  {
    hide Sum, ActualOf, HeldOf, UnknownOf;
    SumOnly(Actuals(rows), b.actuals);
    SumOnly(Holds(rows), b.outstanding);
    SumOnly(Unknowns(rows), map k | k in b.unknown :: 1);
    SumOfOnes(b.unknown);
  }

  lemma AsMerged(a: Account, b: Book)
    requires Alike(a, Merged(a)) && b.imported == ImportedSpent(a)
    requires var rows := Merged(a).live;
             Sum(Actuals(rows)) == Sum(b.actuals) && Sum(Holds(rows)) == Sum(b.outstanding) && Sum(Unknowns(rows)) == |b.unknown|
    ensures Spent(a) == Used(b) && Held(a) == Sum(b.outstanding) && Sum(Unknowns(a.live)) == |b.unknown| && ArchivedSpent(a).Some?
  {
    hide Sum, Actuals, Holds, Unknowns, Restored, IsBlocked, KnownRow;
  }

  lemma BlockedHolds(a: Account, b: Book)
    requires Matches(Some(a), b)
    ensures IsBlocked(a) <==> b.outstanding != map[]
  {
    if IsBlocked(a) {
      var k :| k in a.live && !a.live[k].Settled?;
      assert Posted(b, k, KnownRow(a, k));
    }
    if k :| k in b.outstanding {
      assert Posted(b, k, KnownRow(a, k));
    }
  }

  function RowIn(rows: map<string, Reservation>, k: string): Option<Reservation>
  {
    if k in rows then Some(rows[k]) else None
  }

  lemma MergedRow(a: Account, k: string)
    requires Sound(Some(a))
    ensures RowIn(Merged(a).live, k) == KnownRow(a, k)
  {
    hide Sum;
  }

  lemma CarriesAll(rows: map<string, Reservation>, b: Book)
    requires forall k :: Posted(b, k, RowIn(rows, k))
    ensures Carries(rows, b)
  {
    forall k ensures k in b.actuals ==> k in rows && ActualOf(rows[k]) == b.actuals[k] { assert Posted(b, k, RowIn(rows, k)); }
    forall k ensures k in b.outstanding ==> k in rows && HeldOf(rows[k]) == b.outstanding[k] { assert Posted(b, k, RowIn(rows, k)); }
    forall k ensures k in b.unknown ==> k in rows && UnknownOf(rows[k]) == 1 { assert Posted(b, k, RowIn(rows, k)); }
    forall k | k in rows
      ensures (k !in b.actuals ==> ActualOf(rows[k]) == 0) && (k !in b.outstanding ==> HeldOf(rows[k]) == 0)
      ensures k !in b.unknown ==> UnknownOf(rows[k]) == 0
    {
      assert Posted(b, k, RowIn(rows, k));
    }
  }

  lemma MergedPosted(a: Account, b: Book)
    requires Sound(Some(a)) && Matches(Some(a), b)
    ensures Carries(Merged(a).live, b) && b.imported == ImportedSpent(a)
  {
    hide Sound, Posted, KnownRow, RowIn, Merged;
    forall k ensures Posted(b, k, RowIn(Merged(a).live, k)) { MergedRow(a, k); }
    CarriesAll(Merged(a).live, b);
  }

  // ---------------------------------------------------------------- every step is entered

  /** Only one row is different. */
  ghost predicate Changes(a: Account, v: Account, request: string, row: Reservation)
  {
    && v.allowance == a.allowance && v.deadline == a.deadline && v.imported == a.imported
    && KnownRow(v, request) == Some(row) && forall k :: k != request ==> KnownRow(v, k) == KnownRow(a, k)
  }

  lemma RowPosted(a: Account, v: Account, b: Book, c: Book, request: string, row: Reservation)
    requires Matches(Some(a), b) && Changes(a, v, request, row) && Posted(c, request, Some(row))
    requires c == b.(actuals := c.actuals, outstanding := c.outstanding, unknown := c.unknown)
    requires c.actuals - {request} == b.actuals - {request} && c.outstanding - {request} == b.outstanding - {request}
    requires c.unknown - {request} == b.unknown - {request}
    ensures Matches(Some(v), c)
  {
    hide KnownRow;
    forall k ensures Posted(c, k, KnownRow(v, k)) {
      if k != request {
        assert Posted(b, k, KnownRow(a, k));
        assert k in c.actuals <==> k in c.actuals - {request};
        assert k in b.actuals <==> k in b.actuals - {request};
        assert k in c.outstanding <==> k in c.outstanding - {request};
        assert k in b.outstanding <==> k in b.outstanding - {request};
        assert k in c.unknown <==> k in c.unknown - {request};
        assert k in b.unknown <==> k in b.unknown - {request};
        assert k in b.actuals ==> (b.actuals - {request})[k] == b.actuals[k];
        assert k in c.actuals ==> (c.actuals - {request})[k] == c.actuals[k];
        assert k in b.outstanding ==> (b.outstanding - {request})[k] == b.outstanding[k];
        assert k in c.outstanding ==> (c.outstanding - {request})[k] == c.outstanding[k];
      }
    }
  }

  /** No row is different. */
  lemma SamePosted(a: Account, v: Account, b: Book)
    requires Matches(Some(a), b) && SameRows(a, v)
    ensures Matches(Some(v), b)
  {
    hide KnownRow;
  }

  /** A grant is for a request that has no row yet. */
  lemma GrantedRow(s: State, op: Op)
    requires s.Some? && op.DoReserve? && IsGrant(Step(s, op).0)
    ensures Step(s, op).1.Some? && KnownRow(s.value, op.request).None?
    ensures Changes(s.value, Step(s, op).1.value, op.request, Reserved(op.amount))
  {
    hide Obstacle;
  }

  lemma RefusedRow(s: State, op: Op)
    requires s.Some? && op.DoReserve? && !IsGrant(Step(s, op).0)
    ensures Step(s, op).1.Some? && SameRows(s.value, Step(s, op).1.value)
  {
    hide Obstacle;
  }

  ghost predicate SameRows(a: Account, v: Account)
  {
    && v.allowance == a.allowance && v.deadline == a.deadline && v.imported == a.imported
    && forall k :: KnownRow(v, k) == KnownRow(a, k)
  }

  lemma ReservePosted(s: State, op: Op, b: Book)
    requires Matches(s, b) && op.DoReserve? && s.Some?
    ensures Matches(Step(s, op).1, Entered(b, op, Step(s, op).0))
  {
    var r := Step(s, op).0;
    hide Step, Matches, Posted, KnownRow, Changes, SameRows;
    if IsGrant(r) {
      GrantedRow(s, op);
      PostedOf(s.value, b, op.request);
      GrantEntered(b, op.request, op.amount);
      RowPosted(s.value, Step(s, op).1.value, b, Entered(b, op, r), op.request, Reserved(op.amount));
    } else {
      RefusedRow(s, op);
      SamePosted(s.value, Step(s, op).1.value, b);
    }
  }

  lemma PostedOf(a: Account, b: Book, request: string)
    requires Matches(Some(a), b)
    ensures Posted(b, request, KnownRow(a, request))
  {
    hide KnownRow, Posted;
  }

  lemma GrantEntered(b: Book, request: string, amount: nat)
    requires Posted(b, request, None)
    ensures var c := b.(outstanding := b.outstanding[request := amount]);
            Posted(c, request, Some(Reserved(amount))) && c.outstanding - {request} == b.outstanding - {request}
  {
  }

  /** Settling or reconciling with an outcome, fresh or repeated, leaves that outcome in the row. */
  lemma SettledRow(s: State, request: string, actual: Option<nat>, reconcile: bool)
    requires Sound(s) && Settle(s, request, actual, reconcile).0.Receipt?
    ensures var v := Settle(s, request, actual, reconcile).1;
            && s.Some? && v.Some? && Known(s.value, request)
            && (actual.None? ==> !RowOf(s.value, request).Settled?)
            && Changes(s.value, v.value, request, Outcome(RowOf(s.value, request), actual))
  {
    hide Sum;
  }

  lemma UnsettledRow(s: State, request: string, actual: Option<nat>, reconcile: bool)
    requires !Settle(s, request, actual, reconcile).0.Receipt?
    ensures Settle(s, request, actual, reconcile).1 == s
  {
  }

  lemma OutcomeEntered(b: Book, request: string, row: Reservation, actual: Option<nat>)
    requires Posted(b, request, Some(row)) && (actual.None? ==> !row.Settled?)
    ensures var c := if actual.Some? then Closing(b, request, actual.value) else b.(unknown := b.unknown + {request});
            && Posted(c, request, Some(Outcome(row, actual)))
            && c.actuals - {request} == b.actuals - {request} && c.outstanding - {request} == b.outstanding - {request}
            && c.unknown - {request} == b.unknown - {request}
  {
  }

  lemma SettlePosted(s: State, request: string, actual: Option<nat>, reconcile: bool, b: Book)
    requires Matches(s, b) && Sound(s)
    ensures var (r, v) := Settle(s, request, actual, reconcile);
            Matches(v, if !r.Receipt? then b
                       else if actual.Some? then Closing(b, request, actual.value) else b.(unknown := b.unknown + {request}))
  {
    var (r, v) := Settle(s, request, actual, reconcile);
    hide Settle, Matches, Posted, Changes, Sound;
    if r.Receipt? {
      SettledRow(s, request, actual, reconcile);
      PostedOf(s.value, b, request);
      var row := RowOf(s.value, request);
      OutcomeEntered(b, request, row, actual);
      var c := if actual.Some? then Closing(b, request, actual.value) else b.(unknown := b.unknown + {request});
      RowPosted(s.value, v.value, b, c, request, Outcome(row, actual));
    } else {
      UnsettledRow(s, request, actual, reconcile);
    }
  }

  lemma ArchivePosted(s: State, chosen: set<string>, b: Book)
    requires Matches(s, b) && Sound(s)
    ensures Matches(ArchiveRows(s, chosen).1, b)
  {
    hide Sum, Posted;
    if s.Some? { ArchiveSameRows(s.value, chosen); }
    hide ArchiveRows, KnownRow;
  }

  lemma ArchiveSameRows(a: Account, chosen: set<string>)
    requires Sound(Some(a))
    ensures ArchiveRows(Some(a), chosen).1.Some? && SameRows(a, ArchiveRows(Some(a), chosen).1.value)
  {
    var v := ArchiveShape(a, chosen);
    assert a.live.Keys !! a.archive.Keys;
    hide Sound, KnownRow, ArchiveRows, Moving;
    if v != a {
      forall k ensures KnownRow(v, k) == KnownRow(a, k) { MovedRow(a, v, chosen, k); }
    }
  }

  lemma ArchiveShape(a: Account, chosen: set<string>) returns (v: Account)
    requires Sound(Some(a))
    ensures ArchiveRows(Some(a), chosen).1 == Some(v)
    ensures v == a || v == a.(live := a.live - Moving(a, chosen).Keys, archive := a.archive + Moving(a, chosen), total := v.total)
  {
    hide Sum, Moving;
    v := ArchiveRows(Some(a), chosen).1.value;
  }

  lemma MovedRow(a: Account, v: Account, chosen: set<string>, k: string)
    requires a.live.Keys !! a.archive.Keys
    requires v == a.(live := a.live - Moving(a, chosen).Keys, archive := a.archive + Moving(a, chosen), total := v.total)
    ensures KnownRow(v, k) == KnownRow(a, k)
  {
    assert k in v.archive <==> k in a.archive || k in Moving(a, chosen);
    assert k in v.live <==> k in a.live && k !in Moving(a, chosen);
  }

  lemma OpeningPosted(s: State, op: Op, b: Book)
    requires Matches(s, b) && Sound(s) && (op.DoCreate? || op.DoImport?)
    ensures Matches(Step(s, op).1, Entered(b, op, Step(s, op).0))
  {
    hide Sum;
  }

  lemma WatchingPosted(s: State, op: Op, b: Book)
    requires Matches(s, b) && (op.DoInspect? || op.DoObserve?)
    ensures Matches(Step(s, op).1, b)
  {
    hide Sum, Inspect, Judge, Posted;
    if s.Some? {
      var v := Step(s, op).1.value;
      assert forall k :: KnownRow(v, k) == KnownRow(s.value, k);
    }
    hide KnownRow;
  }

  lemma StepPosted(s: State, op: Op, b: Book)
    requires Matches(s, b) && Sound(s)
    ensures Matches(Step(s, op).1, Entered(b, op, Step(s, op).0))
  {
    hide Matches, Sound, Create, ImportLegacy, Reserve, Settle, Inspect, Observe, ArchiveRows, Closing, EMPTY, Amounts;
    match op
    case DoCreate(_, _, _) => OpeningPosted(s, op, b);
    case DoImport(_, _) => OpeningPosted(s, op, b);
    case DoReserve(request, amount, c1, c2, c3) => ReservedPosted(s, op, b);
    case DoSettle(request, actual) => SettlePosted(s, request, actual, false, b);
    case DoReconcile(request, final) => SettlePosted(s, request, Some(final), true, b);
    case DoInspect => WatchingPosted(s, op, b);
    case DoObserve(_, _) => WatchingPosted(s, op, b);
    case DoArchive(chosen) => ArchivePosted(s, chosen, b);
  }

  lemma ReservedPosted(s: State, op: Op, b: Book)
    requires Matches(s, b) && op.DoReserve?
    ensures Matches(Step(s, op).1, Entered(b, op, Step(s, op).0))
  {
    if s.Some? {
      hide Matches, Step;
      ReservePosted(s, op, b);
    }
  }

  // ---------------------------------------------------------------- every response

  /** What an answer may say, given the books before the call. */
  ghost predicate Justified(b: Book, op: Op, r: Response)
  {
    && Balanced(Entered(b, op, r), r)
    && (r.Receipt? && (op.DoReserve? || op.DoSettle? || op.DoReconcile?) ==> r.request == op.request)
    && (IsGrant(r) ==> Granted(b, op, r))
    && (op.DoSettle? || op.DoReconcile? ==> (r.Receipt? <==> Answerable(b, op)))
    && Answered(b, op, r)
  }

  /** The status follows from the books and the time, except that a full table is told apart from an
      exhausted allowance. */
  ghost predicate Told(b: Book, amount: nat, status: Status, now: real)
  {
    if now >= b.deadline then status == Expired
    else if b.unknown != {} then status == UnknownUsage
    else if b.outstanding != map[] then status == PendingUsage
    else if Used(b) + amount > b.allowance then status in {CapacityExhausted, NoAllowance}
    else status in {CapacityExhausted, Available}
  }

  /** A scope is made once, by equal terms or an equal import again, and then always reported. */
  ghost predicate Answered(b: Book, op: Op, r: Response)
  {
    match op
    case DoCreate(allowance, deadline, c) =>
      r.Report? <==> if b.started then allowance == b.allowance && deadline == b.deadline else Usable(c)
    case DoImport(m, c) =>
      r.Report? <==>
        && |m.items| <= MAX_RESERVATIONS && (forall k :: k in m.items ==> !m.items[k].Settled?)
        && if b.started then b.manifest == Some(m) else Usable(c)
    case DoInspect => r.Report? <==> b.started
    case DoObserve(amount, c) =>
      && (r.Observation? <==> b.started && Usable(c))
      && (r.Observation? ==> c.time <= r.now && Told(b, amount, r.status, r.now))
    case _ => true
  }

  /** A reservation is settled once and an unknown outcome reconciled once; the same again is
      answered the same, and anything else is refused. */
  predicate Answerable(b: Book, op: Op)
    requires op.DoSettle? || op.DoReconcile?
  {
    match op
    case DoSettle(request, None) => request in b.outstanding
    case DoSettle(request, Some(actual)) =>
      (request in b.outstanding && request !in b.unknown) || (request in b.actuals && b.actuals[request] == actual)
    case DoReconcile(request, final) =>
      request in b.unknown || (request in b.actuals && b.actuals[request] == final)
  }

  /** The request is new, everything before it is settled, it fits and no clock reading is late. */
  ghost predicate Granted(b: Book, op: Op, r: Response)
  {
    && op.DoReserve? && r == Receipt(op.request, Reserved(op.amount), true)
    && b.started && Used(b) + op.amount <= b.allowance && b.outstanding == map[] && op.request !in b.actuals
    && op.c1.At? && op.c1.time < b.deadline && op.c2.At? && op.c2.time < b.deadline && op.c3.At? && op.c3.time < b.deadline
  }

  lemma ReportBalanced(s: State, b: Book)
    requires Matches(s, b) && Sound(s)
    ensures Balanced(b, Inspect(s))
  {
    hide Sum, Posted;
    if s.Some? { MatchedSums(s.value, b); }
  }

  lemma ObservationBalanced(s: State, b: Book, amount: nat, c: Reading)
    requires Matches(s, b) && Sound(s)
    ensures Balanced(b, Observe(s, amount, c).0)
  {
    hide Sum, Posted;
    if s.Some? { MatchedSums(s.value, b); }
  }

  lemma GrantJustified(s: State, op: Op, b: Book)
    requires Matches(s, b) && Sound(s) && IsGrant(Step(s, op).0)
    ensures Granted(b, op, Step(s, op).0)
  {
    hide Sum, Posted, Sound;
    assert op.DoReserve? && s.Some? by { hide Inspect, Matches; }
    MatchedSums(s.value, b);
    PostedOf(s.value, b, op.request);
    GrantedRow(s, op);
    FreshToBooks(b, op.request);
    hide Matches, IsBlocked;
  }

  lemma FreshToBooks(b: Book, request: string)
    requires Posted(b, request, None)
    ensures request !in b.actuals
  {
  }

  lemma AnswerJustified(s: State, op: Op, b: Book)
    requires Matches(s, b) && Sound(s)
    ensures Justified(b, op, Step(s, op).0)
  {
    hide Matches, Sound, Balanced, Inspect, Step, Granted, Answerable, Answered;
    var r := Step(s, op).0;
    if op.DoSettle? || op.DoReconcile? { SettleAnswered(s, op, b); }
    OpeningAnswered(s, op, b);
    if r.Receipt? {
      ReceiptRow(s, op);
      ReceiptBalanced(s, op, b);
      if IsGrant(r) { GrantJustified(s, op, b); }
    } else {
      OtherBalanced(s, op, b);
    }
  }

  lemma SettleAnswered(s: State, op: Op, b: Book)
    requires Matches(s, b) && (op.DoSettle? || op.DoReconcile?)
    ensures Step(s, op).0.Receipt? <==> Answerable(b, op)
  {
    if s.Some? { PostedOf(s.value, b, op.request); }
    hide Sum;
  }

  lemma OpeningAnswered(s: State, op: Op, b: Book)
    requires Matches(s, b) && Sound(s)
    ensures Answered(b, op, Step(s, op).0)
  {
    if op.DoObserve? {
      hide Matches, Sound, Step;
      ObserveAnswered(s, op.amount, op.c, b);
      ObserveIs(s, op, b);
    } else {
      hide Sum, KnownRow, Posted, Obstacle;
      if s.Some? {
        assert ArchivedSpent(s.value).Some?;
      }
      hide Sound;
    }
  }

  lemma ObserveAnswered(s: State, amount: nat, c: Reading, b: Book)
    requires Matches(s, b) && Sound(s)
    ensures var r := Observe(s, amount, c).0;
            && (r.Observation? <==> b.started && Usable(c))
            && (r.Observation? ==> c.time <= r.now && Told(b, amount, r.status, r.now))
  {
    if s.Some? {
      MatchedSums(s.value, b);
      NoneUnknown(b);
    }
    hide Sum, Posted, KnownRow, Sound, IsBlocked, Held;
  }

  lemma NoneUnknown(b: Book)
    ensures |b.unknown| > 0 <==> b.unknown != {}
  {
  }

  lemma ReceiptRow(s: State, op: Op)
    requires Step(s, op).0.Receipt?
    ensures op.DoReserve? || op.DoSettle? || op.DoReconcile?
    ensures var (r, v) := Step(s, op); r.request == op.request && v.Some? && KnownRow(v.value, r.request) == Some(r.row)
  {
    hide Inspect, Obstacle, Sum;
    assert !Inspect(s).Receipt? && !Inspect(Step(s, op).1).Receipt? by { NoReceiptIn(s); NoReceiptIn(Step(s, op).1); }
  }

  lemma NoReceiptIn(s: State)
    ensures !Inspect(s).Receipt?
  {
    hide Sum;
  }

  lemma ReceiptBalanced(s: State, op: Op, b: Book)
    requires Matches(s, b) && Sound(s) && Step(s, op).0.Receipt?
    ensures Balanced(Entered(b, op, Step(s, op).0), Step(s, op).0)
  {
    hide Matches, Sound, Step, Entered, KnownRow, Posted;
    ReceiptRow(s, op);
    StepPosted(s, op, b);
    PostedOf(Step(s, op).1.value, Entered(b, op, Step(s, op).0), Step(s, op).0.request);
  }

  lemma OtherBalanced(s: State, op: Op, b: Book)
    requires Matches(s, b) && Sound(s) && !Step(s, op).0.Receipt?
    ensures Balanced(Entered(b, op, Step(s, op).0), Step(s, op).0)
  {
    hide *;
    var (r, v) := Step(s, op);
    if r.Report? {
      StepPosted(s, op, b);
      StepKeepsSound(s, op);
      ReportOf(s, op);
      ReportBalanced(v, Entered(b, op, r));
    } else if op.DoObserve? {
      ObserveIs(s, op, b);
      ObservationBalanced(s, b, op.amount, op.c);
    } else {
      NothingObserved(s, op);
      NothingClaimed(Entered(b, op, r), r);
    }
  }

  lemma ObserveIs(s: State, op: Op, b: Book)
    requires op.DoObserve?
    ensures Step(s, op) == Observe(s, op.amount, op.c) && Entered(b, op, Step(s, op).0) == b
  {
    hide Observe;
  }

  lemma NothingObserved(s: State, op: Op)
    requires !op.DoObserve?
    ensures !Step(s, op).0.Observation?
  {
    hide Inspect, Obstacle, Sum;
    assert !Inspect(s).Observation? by { NoObservationIn(s); }
    assert !Inspect(Step(s, op).1).Observation? by { NoObservationIn(Step(s, op).1); }
  }

  lemma NoObservationIn(s: State)
    ensures !Inspect(s).Observation?
  {
    hide Sum;
  }

  lemma NothingClaimed(b: Book, r: Response)
    requires !r.Report? && !r.Observation? && !r.Receipt?
    ensures Balanced(b, r)
  {
  }

  /** Every report is about the state that the call leaves. */
  lemma ReportOf(s: State, op: Op)
    requires Step(s, op).0.Report?
    ensures Step(s, op).0 == Inspect(Step(s, op).1)
  {
    hide Inspect, Obstacle, Sum;
  }

  // ---------------------------------------------------------------- whole runs

  /** Over every run from the absent scope: each report and observation is what the books say, and
      each grant is one that the books allow. */
  lemma BooksBalance(ops: seq<Op>, i: nat)
    requires i < |ops|
    ensures var rs := Responses(None, ops); Justified(Kept(EMPTY, ops[..i], rs[..i]), ops[i], rs[i])
  {
    hide Justified, Entered, Step;
    RunJustified(None, EMPTY, ops, i);
  }

  lemma {:induction false} RunJustified(s: State, b: Book, ops: seq<Op>, i: nat)
    requires Matches(s, b) && Sound(s) && i < |ops|
    ensures var rs := Responses(s, ops); Justified(Kept(b, ops[..i], rs[..i]), ops[i], rs[i])
    decreases |ops|
  {
    hide Matches, Sound, Justified, Entered, Step;
    var rs := Responses(s, ops);
    if i == 0 {
      AnswerJustified(s, ops[0], b);
    } else {
      StepPosted(s, ops[0], b);
      StepKeepsSound(s, ops[0]);
      var t, c := Step(s, ops[0]).1, Entered(b, ops[0], rs[0]);
      RunJustified(t, c, ops[1..], i - 1);
      assert ops[..i][1..] == ops[1..][..i - 1] && rs[..i][1..] == rs[1..][..i - 1] && rs[1..] == Responses(t, ops[1..]);
    }
  }

  /** And it does grant what the books allow: after every run, a new request that fits is granted
      when nothing is outstanding, no clock reading is late and not too many requests were ever made. */
  lemma AllowedIsGranted(ops: seq<Op>, op: Op)
    requires op.DoReserve? && Run(None, ops).Some?
    requires var b := Kept(EMPTY, ops, Responses(None, ops));
             && op.request !in b.actuals && b.outstanding == map[] && Used(b) + op.amount <= b.allowance
             && |b.actuals| < MAX_RESERVATIONS && Run(None, ops).value.observed < b.deadline
             && Usable(op.c1) && op.c1.time < b.deadline && Usable(op.c2) && op.c2.time < b.deadline
             && Usable(op.c3) && op.c3.time < b.deadline
    ensures Step(Run(None, ops), op).0 == Receipt(op.request, Reserved(op.amount), true)
  {
    hide Step, Entered;
    RunPosted(None, EMPTY, ops);
    RunKeepsSound(None, ops);
    hide *;
    GrantsAllowed(Run(None, ops), op, Kept(EMPTY, ops, Responses(None, ops)));
  }

  lemma {:induction false} RunPosted(s: State, b: Book, ops: seq<Op>)
    requires Matches(s, b) && Sound(s)
    ensures Matches(Run(s, ops), Kept(b, ops, Responses(s, ops)))
    decreases |ops|
  {
    hide Matches, Sound, Entered, Step;
    if ops != [] {
      StepPosted(s, ops[0], b);
      StepKeepsSound(s, ops[0]);
      RunPosted(Step(s, ops[0]).1, Entered(b, ops[0], Step(s, ops[0]).0), ops[1..]);
      assert Responses(s, ops)[1..] == Responses(Step(s, ops[0]).1, ops[1..]);
    }
  }

  lemma GrantsAllowed(s: State, op: Op, b: Book)
    requires Matches(s, b) && Sound(s) && s.Some? && op.DoReserve?
    requires op.request !in b.actuals && b.outstanding == map[] && Used(b) + op.amount <= b.allowance
    requires |b.actuals| < MAX_RESERVATIONS && s.value.observed < b.deadline
    requires Usable(op.c1) && op.c1.time < b.deadline && Usable(op.c2) && op.c2.time < b.deadline
    requires Usable(op.c3) && op.c3.time < b.deadline
    ensures Step(s, op).0 == Receipt(op.request, Reserved(op.amount), true)
  {
    var a := s.value;
    MatchedSums(a, b);
    PostedOf(a, b, op.request);
    FewRows(a, b);
    hide Sum, Spent, Sound, Held;
    assert KnownRow(a, op.request).None?;
    assert Obstacle(a, op.amount).None? by { hide Posted, KnownRow; }
    hide Obstacle, Posted;
  }

  lemma FewRows(a: Account, b: Book)
    requires Matches(Some(a), b) && b.outstanding == map[]
    ensures |a.live| <= |b.actuals|
  {
    forall k | k in a.live ensures k in b.actuals { PostedOf(a, b, k); }
    assert a.live.Keys <= b.actuals.Keys;
    CardinalityBound(a.live.Keys, b.actuals.Keys);
  }
}
