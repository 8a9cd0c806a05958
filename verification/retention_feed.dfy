/** The event feed of a store over whole runs: events are published, subscriptions are opened and
    advanced, and retention is applied, in any order. Readers that resume where they may miss nothing. */
module RetentionFeed {
  import opened StrictJson
  import opened ContentDecoding
  import opened RetentionPlan
  import opened RetentionLaws

  /** `published` remembers every event that was ever there; no step reads it but to number the next. */
  datatype Feed = Feed(t: Tables, published: map<nat, Event>, highWater: map<string, nat>)

  datatype Step =
    | Publish(sequence: nat, event: Event)
    | Advance(subscription: CursorKey, expected: nat, to: nat)
    | Apply(run: string, policy: Policy, operation: string)
    | Write(tables: Tables)

  function MarkOf(t: Tables, run: string): nat { if run in t.expiredThrough then t.expiredThrough[run] else 0 }

  /** A position that the expiry check accepts. */
  predicate Current(t: Tables, run: string, position: nat) { MarkOf(t, run) <= position }

  /** A new event gets a number that was never used before. */
  function PublishEvent(f: Feed, sequence: nat, event: Event): Option<Feed>
  {
    if exists e :: e in f.published && e >= sequence then None
    else
      Some(Feed(
        f.t.(events := f.t.events[sequence := event],
             expiredThrough := f.t.expiredThrough[event.run := MarkOf(f.t, event.run)]),
        f.published[sequence := event], f.highWater[event.run := sequence]))
  }

  /** A subscription that does not exist yet stands at zero. */
  function PositionOf(t: Tables, c: CursorKey): nat { if c in t.cursors then t.cursors[c] else 0 }

  function AdvanceCursor(f: Feed, c: CursorKey, expected: nat, to: nat): Option<Feed>
  {
    var position := PositionOf(f.t, c);
    if position != expected || c.run !in f.highWater || !Current(f.t, c.run, position)
       || !(position <= to <= f.highWater[c.run])
    then None
    else Some(f.(t := f.t.(cursors := f.t.cursors[c := to])))
  }

  /** An application, as `ApplyRetention` commits it when nothing stands in its way. */
  ghost function ApplyPolicy(base: Reader, f: Feed, run: string, policy: Policy, operation: string): Option<Feed>
  {
    match PlanOf(base, f.t, run, policy)
    case None => None
    case Some(plan) =>
      if !plan.applicable || (plan.events != {} && run !in f.t.expiredThrough) then None
      else Some(f.(t := Applied(f.t, plan, operation)))
  }

  /** Any other commit leaves the feed alone. */
  function WriteOther(f: Feed, tables: Tables): Option<Feed>
  {
    if tables.events != f.t.events || tables.cursors != f.t.cursors || tables.expiredThrough != f.t.expiredThrough then None
    else Some(f.(t := tables))
  }

  ghost function Next(base: Reader, f: Feed, step: Step): Option<Feed>
  {
    match step
    case Publish(sequence, event) => PublishEvent(f, sequence, event)
    case Advance(c, expected, to) => AdvanceCursor(f, c, expected, to)
    case Apply(run, policy, operation) => ApplyPolicy(base, f, run, policy, operation)
    case Write(tables) => WriteOther(f, tables)
  }

  ghost function After(base: Reader, f: Feed, steps: seq<Step>): Option<Feed>
    decreases |steps|
  {
    if steps == [] then Some(f)
    else
      match After(base, f, steps[..|steps| - 1])
      case None => None
      case Some(g) => Next(base, g, steps[|steps| - 1])
  }

  /** A store before any retention. */
  predicate Untouched(f: Feed)
  {
    f.published == f.t.events && f.t.cursors == map[] && forall run :: run in f.t.expiredThrough ==> f.t.expiredThrough[run] == 0
  }

  /** What is gone lies at or below the mark of its Run, and no subscription lies below it. */
  ghost predicate Faithful(f: Feed)
  {
    && (forall e :: e in f.published ==> Kept(f, e))
    && (forall c :: c in f.t.cursors ==> Current(f.t, c.run, f.t.cursors[c]))
  }

  predicate Kept(f: Feed, e: nat)
    requires e in f.published
  {
    (e in f.t.events && f.t.events[e] == f.published[e]) || e <= MarkOf(f.t, f.published[e].run)
  }

  /** The events of a plan are behind every subscription of its Run, and the mark covers them. */
  lemma ApplyFaithful(base: Reader, f: Feed, run: string, policy: Policy, operation: string)
    requires Faithful(f) && ApplyPolicy(base, f, run, policy, operation).Some?
    ensures Faithful(ApplyPolicy(base, f, run, policy, operation).value)
  {
    hide PlanOf, EventCandidates;
    var plan := PlanOf(base, f.t, run, policy).value;
    var g := ApplyPolicy(base, f, run, policy, operation).value;
    PlanShape(base, f.t, run, policy);
    hide ApplyPolicy;
    DeletionFaithful(f, g, run, policy, plan, operation);
  }

  lemma PlanShape(base: Reader, t: Tables, run: string, policy: Policy)
    requires PlanOf(base, t, run, policy).Some? && PlanOf(base, t, run, policy).value.applicable
    ensures var plan := PlanOf(base, t, run, policy).value;
            plan.run == run && plan.events == EventCandidates(t.events, t.cursors, run, policy)
  {
    hide ContentOk, Protected, Roots, ObjectCandidates, HistoryCandidates, EventCandidates;
  }

  lemma DeletionFaithful(f: Feed, g: Feed, run: string, policy: Policy, plan: Plan, operation: string)
    requires Faithful(f) && plan.run == run && plan.events == EventCandidates(f.t.events, f.t.cursors, run, policy)
    requires plan.events == {} || run in f.t.expiredThrough
    requires g == f.(t := Applied(f.t, plan, operation))
    ensures Faithful(g)
  {
    hide EventCandidates;
    assert g.t.events == f.t.events - plan.events && g.t.cursors == f.t.cursors && g.t.expiredThrough == Raised(f.t, plan);
    hide Applied;
    assert forall other :: MarkOf(f.t, other) <= MarkOf(g.t, other);
    forall e | e in f.published ensures Kept(g, e) {
      assert Kept(f, e);
      if e in plan.events { DeletedIsDecision(f, run, policy, e); }
    }
    forall c | c in g.t.cursors ensures Current(g.t, c.run, g.t.cursors[c]) {
      assert Current(f.t, c.run, f.t.cursors[c]);
      if c.run == run && plan.events != {} {
        DeletedEventsWerePassed(f.t, run, policy, Greatest(plan.events), c);
      }
    }
  }

  lemma DeletedIsDecision(f: Feed, run: string, policy: Policy, e: nat)
    requires e in EventCandidates(f.t.events, f.t.cursors, run, policy)
    ensures e in f.t.events && f.t.events[e].run == run
  {
  }

  lemma StepFaithful(base: Reader, f: Feed, step: Step)
    requires Faithful(f) && Next(base, f, step).Some?
    ensures Faithful(Next(base, f, step).value)
  {
    match step
    case Apply(run, policy, operation) =>
      hide Faithful, ApplyPolicy;
      ApplyFaithful(base, f, run, policy, operation);
    case _ =>
      hide ApplyPolicy;
      var g := Next(base, f, step).value;
      forall e | e in g.published ensures Kept(g, e) {
        assert e in f.published ==> Kept(f, e);
      }
  }

  lemma {:induction false} FaithfulAlways(base: Reader, start: Feed, steps: seq<Step>)
    requires Untouched(start) && After(base, start, steps).Some?
    ensures Faithful(After(base, start, steps).value)
    decreases |steps|
  {
    hide Next;
    if steps != [] {
      FaithfulAlways(base, start, steps[..|steps| - 1]);
      hide Faithful, Untouched;
      StepFaithful(base, After(base, start, steps[..|steps| - 1]).value, steps[|steps| - 1]);
    }
  }

  /** Over every run: whoever reads on from a position that the expiry check accepts still finds
      every event of that Run ever published after it. */
  lemma NothingMissed(base: Reader, start: Feed, steps: seq<Step>, run: string, position: nat, e: nat)
    requires Untouched(start) && After(base, start, steps).Some?
    requires var f := After(base, start, steps).value;
             Current(f.t, run, position) && e in f.published && f.published[e].run == run && e > position
    ensures var f := After(base, start, steps).value;
            e in f.t.events && f.t.events[e] == f.published[e]
  {
    FaithfulAlways(base, start, steps);
    hide After, Untouched;
    assert Kept(After(base, start, steps).value, e);
  }

  /** And every subscription always stands at such a position: no event ahead of a subscription
      is ever deleted, and none finds its cursor expired. */
  lemma SubscriptionsStayCurrent(base: Reader, start: Feed, steps: seq<Step>, c: CursorKey)
    requires Untouched(start) && After(base, start, steps).Some? && c in After(base, start, steps).value.t.cursors
    ensures var f := After(base, start, steps).value;
            && Current(f.t, c.run, f.t.cursors[c])
            && forall e :: e in f.published && f.published[e].run == c.run && e > f.t.cursors[c] ==>
                 e in f.t.events && f.t.events[e] == f.published[e]
  {
    FaithfulAlways(base, start, steps);
    hide After, Untouched;
    var f := After(base, start, steps).value;
    forall e | e in f.published && f.published[e].run == c.run && e > f.t.cursors[c]
      ensures e in f.t.events && f.t.events[e] == f.published[e]
    {
      assert Kept(f, e);
    }
  }
}
