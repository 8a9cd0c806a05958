/** What the ledger promises about authority to spend, over runs of any operations under a
    clock that may return anything. */
module BudgetLimits {
  import opened StrictJson
  import opened Sums
  import opened BudgetLedger
  import opened BudgetLaws

  predicate IsGrant(r: Response) { r.Receipt? && r.authorized }

  // ---------------------------------------------------------------- what no step undoes

  /** Later states keep the terms, never lower the watermark or the usage, and never forget
      a request. */
  ghost predicate Follows(s: State, t: State)
  {
    s.Some? ==>
      && t.Some?
      && t.value.allowance == s.value.allowance && t.value.deadline == s.value.deadline
      && t.value.observed >= s.value.observed
      && Spent(t.value) >= Spent(s.value)
      && forall k :: Known(s.value, k) ==> Known(t.value, k)
  }

  lemma {:induction false} StepFollows(s: State, op: Op)
    requires Sound(s)
    ensures Follows(s, Step(s, op).1)
  {
    if s.Some? {
      match op
      case DoReserve(request, amount, c1, c2, c3) => ReserveFollows(s, request, amount, c1, c2, c3);
      case DoSettle(request, actual) => SettleFollows(s, request, actual, false);
      case DoReconcile(request, final) => SettleFollows(s, request, Some(final), true);
      case DoArchive(chosen) => ArchiveFollows(s, chosen);
      case _ => hide Sum, Inspect, Judge;
    }
  }

  lemma ReserveFollows(s: State, request: string, amount: nat, c1: Reading, c2: Reading, c3: Reading)
    requires Sound(s) && s.Some?
    ensures Follows(s, Reserve(s, request, amount, c1, c2, c3).1)
  {
    hide Sum, Obstacle, RowOf, Actuals, Holds;
    var a := s.value;
    var v := Decide(KnownRow(a, request), Obstacle(a, amount), a.observed, a.deadline,
                    request, amount, c1, c2, c3);
    if v.grants {
      InsertedSums(a.live, request, amount);
    }
  }

  lemma InsertedSums(live: map<string, Reservation>, request: string, amount: nat)
    requires request !in live
    ensures var after := live[request := Reserved(amount)];
            && Sum(Actuals(after)) == Sum(Actuals(live))
            && Sum(Holds(after)) == Sum(Holds(live)) + amount
  {
    hide Sum;
    var after := live[request := Reserved(amount)];
    assert Actuals(after) == Actuals(live)[request := 0];
    SumWith(Actuals(live), request, 0);
    assert Holds(after) == Holds(live)[request := amount];
    SumWith(Holds(live), request, amount);
  }

  lemma ReplacedSums(live: map<string, Reservation>, request: string, row: Reservation)
    requires request in live
    ensures var after := live[request := row];
            && Sum(Actuals(after)) + ActualOf(live[request]) == Sum(Actuals(live)) + ActualOf(row)
            && Sum(Holds(after)) + HeldOf(live[request]) == Sum(Holds(live)) + HeldOf(row)
  {
    hide Sum;
    var after := live[request := row];
    assert Actuals(after) == Actuals(live)[request := ActualOf(row)];
    SumReplaced(Actuals(live), request, ActualOf(row));
    assert Holds(after) == Holds(live)[request := HeldOf(row)];
    SumReplaced(Holds(live), request, HeldOf(row));
  }

  lemma SettleFollows(s: State, request: string, actual: Option<nat>, reconcile: bool)
    requires Sound(s) && s.Some?
    ensures Follows(s, Settle(s, request, actual, reconcile).1)
  {
    var a := s.value;
    if request in a.live {
      ReplacedSums(a.live, request, Outcome(a.live[request], actual));
    }
    hide Sum, Actuals, Holds;
  }

  lemma ArchiveFollows(s: State, chosen: set<string>)
    requires Sound(s) && s.Some?
    ensures Follows(s, ArchiveRows(s, chosen).1)
    ensures forall k :: Known(s.value, k) ==> RowOf(ArchiveRows(s, chosen).1.value, k) == RowOf(s.value, k)
  {
    ArchivingConserves(s, chosen);
    hide Sum;
  }

  lemma FollowsTransitive(s: State, t: State, u: State)
    requires Follows(s, t) && Follows(t, u)
    ensures Follows(s, u)
  {
    hide Spent, Known;
  }

  lemma {:induction false} RunFollows(s: State, ops: seq<Op>)
    requires Sound(s)
    ensures Follows(s, Run(s, ops))
    decreases |ops|
  {
    hide Step, Sound, Spent, Known;
    if |ops| > 0 {
      var t := Step(s, ops[0]).1;
      StepFollows(s, ops[0]);
      StepKeepsSound(s, ops[0]);
      RunFollows(t, ops[1..]);
      FollowsTransitive(s, t, Run(t, ops[1..]));
    }
  }

  // ---------------------------------------------------------------- closed ledgers

  /** A scope that can never authorise anything again: its deadline was observed, or its
      usage is above its allowance. */
  ghost predicate Closed(s: State)
  {
    s.Some? && (s.value.observed >= s.value.deadline || Spent(s.value) > s.value.allowance)
  }

  /** What a grant needs. */
  lemma GrantNeeds(s: State, op: Op)
    requires IsGrant(Step(s, op).0)
    ensures op.DoReserve? && s.Some? && Step(s, op).1.Some?
    ensures !Known(s.value, op.request) && Known(Step(s, op).1.value, op.request)
    ensures Obstacle(s.value, op.amount).None?
    ensures s.value.observed <= Step(s, op).1.value.observed < s.value.deadline
    ensures Step(s, op).0 == Receipt(op.request, Reserved(op.amount), true)
    ensures Step(s, op).1.value ==
      s.value.(observed := Step(s, op).1.value.observed,
               live := s.value.live[op.request := Reserved(op.amount)])
  {
    hide Sum, Obstacle, RowOf, Outcome, Spent, Held, IsBlocked;
  }

  lemma ClosedGrantsNothing(s: State, op: Op)
    requires Closed(s)
    ensures !IsGrant(Step(s, op).0)
  {
    hide Step, Known;
    if IsGrant(Step(s, op).0) {
      GrantNeeds(s, op);
      assert false;
    }
  }

  /** Deadline latch and exhaustion latch: once closed, no operation of any later run
      authorises spending, whatever the clock says. */
  lemma {:induction false} ClosedForEver(s: State, ops: seq<Op>)
    requires Sound(s) && Closed(s)
    ensures forall r :: r in Responses(s, ops) ==> !IsGrant(r)
    ensures Closed(Run(s, ops))
    decreases |ops|
  {
    hide Step, Sound, Spent, Known, IsGrant;
    if |ops| > 0 {
      ClosedGrantsNothing(s, ops[0]);
      StepFollows(s, ops[0]);
      StepKeepsSound(s, ops[0]);
      ClosedForEver(Step(s, ops[0]).1, ops[1..]);
    }
  }

  // ---------------------------------------------------------------- single authority

  /** A request that is recorded is never authorised again. */
  lemma {:induction false} KnownIsNeverGranted(s: State, ops: seq<Op>, request: string)
    requires Sound(s) && s.Some? && Known(s.value, request)
    ensures forall r :: r in Responses(s, ops) && IsGrant(r) ==> r.request != request
    decreases |ops|
  {
    hide Step, Sound, Spent, Known;
    if |ops| > 0 {
      if IsGrant(Step(s, ops[0]).0) {
        GrantNeeds(s, ops[0]);
      }
      StepFollows(s, ops[0]);
      StepKeepsSound(s, ops[0]);
      KnownIsNeverGranted(Step(s, ops[0]).1, ops[1..], request);
    }
  }

  /** In any run, archived or not, each request id is authorised at most once. */
  lemma {:induction false} GrantedOnce(s: State, ops: seq<Op>, i: nat, j: nat)
    requires Sound(s) && i < j < |ops|
    requires IsGrant(Responses(s, ops)[i]) && IsGrant(Responses(s, ops)[j])
    ensures Responses(s, ops)[i].request != Responses(s, ops)[j].request
    decreases |ops|
  {
    hide Step, Sound, Spent, Known;
    var t := Step(s, ops[0]).1;
    StepKeepsSound(s, ops[0]);
    if i == 0 {
      GrantNeeds(s, ops[0]);
      KnownIsNeverGranted(t, ops[1..], ops[0].request);
      assert Responses(s, ops)[j] == Responses(t, ops[1..])[j - 1];
    } else {
      GrantedOnce(t, ops[1..], i - 1, j - 1);
    }
  }

  // ---------------------------------------------------------------- overspend bound

  /** What a settled row used beyond its reservation. */
  function Excess(row: Reservation): nat
  {
    if row.Settled? && row.actual > row.amount then row.actual - row.amount else 0
  }

  /** The state of the ledger after `g` was the latest request to be authorised. */
  ghost predicate LatestGrant(s: State, g: string)
  {
    && s.Some? && Known(s.value, g)
    && (forall k :: k in s.value.live && !s.value.live[k].Settled? ==> k == g)
    && Spent(s.value) + Held(s.value) <= s.value.allowance + Excess(RowOf(s.value, g))
  }

  lemma GrantIsLatest(s: State, op: Op)
    requires Sound(s) && IsGrant(Step(s, op).0)
    ensures op.DoReserve? && LatestGrant(Step(s, op).1, op.request)
  {
    GrantNeeds(s, op);
    var a := s.value;
    InsertedSums(a.live, op.request, op.amount);
    UnblockedSums(a);
    hide Step, Sum, Actuals, Holds, Sound;
  }

  lemma UnblockedSums(a: Account)
    requires !IsBlocked(a)
    ensures Held(a) == 0 && Sum(Unknowns(a.live)) == 0
  {
    hide Sum;
    SumZero(Holds(a.live));
    SumZero(Unknowns(a.live));
  }

  lemma StepKeepsLatest(s: State, op: Op, g: string)
    requires Sound(s) && LatestGrant(s, g) && !IsGrant(Step(s, op).0)
    ensures LatestGrant(Step(s, op).1, g)
  {
    match op
    case DoSettle(request, actual) => SettleKeepsLatest(s, request, actual, false, g);
    case DoReconcile(request, final) => SettleKeepsLatest(s, request, Some(final), true, g);
    case DoArchive(chosen) => ArchiveKeepsLatest(s, chosen, g);
    case DoReserve(request, amount, c1, c2, c3) => RefusalKeepsLatest(s, op, g);
    case _ => hide Sum, Inspect, Judge;
  }

  lemma RefusalKeepsLatest(s: State, op: Op, g: string)
    requires Sound(s) && LatestGrant(s, g) && op.DoReserve? && !IsGrant(Step(s, op).0)
    ensures LatestGrant(Step(s, op).1, g)
  {
    hide Sum, Obstacle, KnownRow;
  }

  lemma SettleKeepsLatest(s: State, request: string, actual: Option<nat>, reconcile: bool, g: string)
    requires Sound(s) && LatestGrant(s, g)
    ensures LatestGrant(Settle(s, request, actual, reconcile).1, g)
  {
    var a := s.value;
    if request in a.live {
      ReplacedSums(a.live, request, Outcome(a.live[request], actual));
    }
    hide Sum, Actuals, Holds;
  }

  lemma ArchiveKeepsLatest(s: State, chosen: set<string>, g: string)
    requires Sound(s) && LatestGrant(s, g)
    ensures LatestGrant(ArchiveRows(s, chosen).1, g)
  {
    ArchivingConserves(s, chosen);
    ArchiveFollows(s, chosen);
    hide Sum, RowOf, Spent, Held;
  }

  /** Overspend bound: at every later moment at which `g` is still the latest authorised
      request, usage plus held reservations exceed the allowance by at most what `g` itself
      used beyond its reservation, and no other reservation is pending. */
  lemma TailAnswers(s: State, ops: seq<Op>)
    requires |ops| > 0
    ensures Responses(s, ops)[0] == Step(s, ops[0]).0 && Run(s, ops) == Run(Step(s, ops[0]).1, ops[1..])
    ensures forall j :: 0 <= j < |ops| - 1 ==> Responses(Step(s, ops[0]).1, ops[1..])[j] == Responses(s, ops)[j + 1]
  {
    hide Step;
  }

  lemma {:induction false} OverspendBound(s: State, ops: seq<Op>, i: nat)
    requires Sound(s) && i < |ops| && IsGrant(Responses(s, ops)[i])
    requires forall j :: i < j < |ops| ==> !IsGrant(Responses(s, ops)[j])
    ensures LatestGrant(Run(s, ops), Responses(s, ops)[i].request)
    decreases |ops|
  {
    hide Step, Sound, LatestGrant, IsGrant;
    var t, rest := Step(s, ops[0]).1, ops[1..];
    StepKeepsSound(s, ops[0]);
    TailAnswers(s, ops);
    hide Run, Responses;
    if i == 0 {
      GrantIsLatest(s, ops[0]);
      GrantNeeds(s, ops[0]);
      QuietRunKeepsLatest(t, rest, ops[0].request);
    } else {
      OverspendBound(t, rest, i - 1);
    }
  }

  lemma {:induction false} QuietRunKeepsLatest(s: State, ops: seq<Op>, g: string)
    requires Sound(s) && LatestGrant(s, g)
    requires forall j :: 0 <= j < |ops| ==> !IsGrant(Responses(s, ops)[j])
    ensures LatestGrant(Run(s, ops), g)
    decreases |ops|
  {
    hide Step, Sound, LatestGrant;
    if |ops| > 0 {
      var t := Step(s, ops[0]).1;
      assert Responses(s, ops)[0] == Step(s, ops[0]).0;
      assert forall j :: 0 <= j < |ops| - 1 ==> Responses(t, ops[1..])[j] == Responses(s, ops)[j + 1];
      StepKeepsSound(s, ops[0]);
      StepKeepsLatest(s, ops[0], g);
      QuietRunKeepsLatest(t, ops[1..], g);
    }
  }

  // ---------------------------------------------------------------- observations

  /** An observation says available exactly when a reserve of that amount under a fresh id
      would be granted on the same rows, were the clock not to advance further. */
  lemma AvailableMeansGrantable(s: State, amount: nat, request: string, c1: Reading, c2: Reading, c3: Reading)
    requires Sound(s) && s.Some? && !Known(s.value, request)
    requires Usable(c1) && Usable(c2) && Usable(c3)
    requires c1.time <= s.value.observed && c2.time <= s.value.observed && c3.time <= s.value.observed
    ensures Judge(s, amount).Observation?
    ensures Judge(s, amount).status == Available <==> IsGrant(Reserve(s, request, amount, c1, c2, c3).0)
  {
    if !IsBlocked(s.value) {
      UnblockedSums(s.value);
    }
    hide Sum, IsBlocked, Held, Spent;
  }

  /** Observing never spends: the watermark is all it changes. */
  lemma ObservingChangesNoRow(s: State, amount: nat, c: Reading)
    requires Sound(s) && s.Some?
    ensures var t := Observe(s, amount, c).1;
            t.Some? && t.value == s.value.(observed := t.value.observed) && t.value.observed >= s.value.observed
    ensures !IsGrant(Observe(s, amount, c).0)
  {
    hide Sum;
  }
}
