/** What a retention plan of retention.py selects in one orchestrator store, and what
    applying it does, as functions of the tables. */
module RetentionPlan {
  import opened StrictJson
  import opened TypedNode
  import opened ContentDecoding
  import opened ContentCodec
  import opened Content
  import opened ContentGraph
  import opened GraphLaws

  datatype Field = Field(section: string, item: string)
  datatype HistoryKey = HistoryKey(run: string, field: Field, revision: nat)
  datatype ItemKey = ItemKey(run: string, field: Field)
  datatype CursorKey = CursorKey(run: string, name: string)
  datatype RunRevision = RunRevision(run: string, revision: nat)
  datatype Event = Event(run: string, kind: string, payload: string)
  datatype Recovery = Recovery(decision: string, applicationState: Option<string>, manifest: string)

  /** How many recent revisions and decision events to keep; nothing means all of them. */
  datatype Policy = Policy(historyRevisions: Option<nat>, decisionEvents: Option<nat>)

  /** A plan is its content: its identity and digest are computed from it. */
  datatype Plan = Plan(
    run: string, policy: Policy, mutation: nat, applicable: bool,
    history: set<HistoryKey>, revisions: set<nat>, events: set<nat>, objects: set<string>)

  datatype Result = Result(
    operation: string, plan: Plan, history: nat, revisions: nat, events: nat, objects: nat,
    expiredThrough: Option<nat>)

  /** The tables of one orchestrator store that retention reads or writes. `receipts` are the
      revisions named by command responses; `expiredThrough` is kept per Run. */
  datatype Tables = Tables(
    current: map<string, nat>,
    revisions: set<RunRevision>,
    receipts: set<RunRevision>,
    history: map<HistoryKey, string>,
    items: map<ItemKey, string>,
    events: map<nat, Event>,
    cursors: map<CursorKey, nat>,
    recoveries: map<string, Recovery>,
    objects: Table,
    disposed: set<string>,
    expired: set<RunRevision>,
    expiredThrough: map<string, nat>,
    operations: map<string, Result>,
    mutation: nat)

  const DECIDED := "application.decided"

  // ---------------------------------------------------------------- revisions

  /** The `k` greatest members of a set. */
  function Beyond(s: set<nat>, x: nat): set<nat> { set y | y in s && y > x }
  function Recent(s: set<nat>, k: nat): set<nat> { set x | x in s && |Beyond(s, x)| < k }

  function RevisionsOf(rows: set<RunRevision>, run: string): set<nat>
  {
    set row | row in rows && row.run == run :: row.revision
  }

  /** The current revision, those named by receipts, and those that the policy keeps. */
  function Protected(t: Tables, run: string, policy: Policy): set<nat>
    requires run in t.current
  {
    var all := RevisionsOf(t.revisions, run);
    {t.current[run]} + RevisionsOf(t.receipts, run)
    + if policy.historyRevisions.None? then all else Recent(all, policy.historyRevisions.value)
  }

  // ---------------------------------------------------------------- history

  predicate SameField(a: HistoryKey, b: HistoryKey) { a.run == b.run && a.field == b.field }

  /** `key` is the latest row of its field at or below a revision. */
  predicate IsBaseline(history: map<HistoryKey, string>, key: HistoryKey, revision: nat)
  {
    && key in history && key.revision <= revision
    && forall other :: other in history && SameField(other, key) && other.revision <= revision ==>
         other.revision <= key.revision
  }

  /** The rows of a Run that are the baseline of some protected revision. */
  function Baselines(history: map<HistoryKey, string>, run: string, protected: set<nat>): set<HistoryKey>
  {
    set key | key in history && key.run == run && exists p :: p in protected && IsBaseline(history, key, p)
  }

  function HistoryCandidates(history: map<HistoryKey, string>, run: string, protected: set<nat>): set<HistoryKey>
  {
    set key | key in history && key.run == run && key !in Baselines(history, run, protected)
  }

  // ---------------------------------------------------------------- events

  function Decisions(events: map<nat, Event>, run: string): set<nat>
  {
    set e | e in events && events[e].run == run && events[e].kind == DECIDED
  }

  /** Some subscription of the Run has not passed the event. */
  predicate Unpassed(cursors: map<CursorKey, nat>, run: string, sequence: nat)
  {
    exists c :: c in cursors && c.run == run && cursors[c] < sequence
  }

  function EventCandidates(
    events: map<nat, Event>, cursors: map<CursorKey, nat>, run: string, policy: Policy): set<nat>
  {
    var decisions := Decisions(events, run);
    var recent := if policy.decisionEvents.None? then decisions else Recent(decisions, policy.decisionEvents.value);
    set e | e in decisions && e !in recent && !Unpassed(cursors, run, e)
  }

  // ---------------------------------------------------------------- content

  /** The texts that content hangs from: items, retained history and events, recoveries. */
  function Roots(t: Tables, history: set<HistoryKey>, events: set<nat>): set<string>
  {
    (set k | k in t.items :: t.items[k])
    + (set k | k in t.history && k !in history :: t.history[k])
    + (set e | e in t.events && e !in events :: t.events[e].payload)
    + (set x | x in t.recoveries :: t.recoveries[x].decision)
    + (set x | x in t.recoveries :: t.recoveries[x].manifest)
    + (set x | x in t.recoveries && t.recoveries[x].applicationState.Some? ::
         t.recoveries[x].applicationState.value)
  }

  function RootNode(r: Reader, text: string): Option<Json>
  {
    if CONTENT_PREFIX <= text then Parse(r, text[|CONTENT_PREFIX|..]) else None
  }

  /** The graph accepts a root: plain legacy text, or a measurable node with good references. */
  ghost predicate RootOk(r: Reader, g: Graph, h: Memos, text: string)
  {
    if CONTENT_PREFIX <= text then
      var node := RootNode(r, text);
      && node.Some? && Measurable(node.value, 0, r.codec.maxDepth, r.codec.maximum)
      && NodeSize(node.value) <= r.codec.maximum
      && Covers(g, h, Refs(node.value)) && Tall(h, node.value) <= MAX_DEPTH
    else ValueOf(r, text).Some?
  }

  /** The whole content of a store passes: every object, reachable or not, and every root. */
  ghost predicate ContentOk(r: Reader, roots: set<string>)
  {
    GoodTable(r) && exists h :: AcceptsAll(r, h, roots)
  }

  ghost predicate AcceptsAll(r: Reader, h: Memos, roots: set<string>)
    requires GoodTable(r)
  {
    && ValidMemo(GraphOf(r), h) && h.Keys == r.table.Keys
    && forall text :: text in roots ==> RootOk(r, GraphOf(r), h, text)
  }

  /** The objects referred to directly by some root. */
  ghost function Starts(r: Reader, roots: set<string>): set<string>
  {
    set text, x | text in roots && x in RootTargets(r, text) :: x
  }

  function RootTargets(r: Reader, text: string): set<string>
  {
    var node := RootNode(r, text);
    if node.Some? && Shape(node.value) then Targets(Refs(node.value)) else {}
  }

  /** Every object that lies in each closed set around `start`: what can be reached. */
  ghost function Reachable(g: Graph, start: set<string>): set<string>
  {
    set x | x in g.nodes && forall s: set<string> :: start <= s && Closed(g, s) ==> x in s
  }

  ghost function ObjectCandidates(r: Reader, roots: set<string>, policy: Policy): set<string>
    requires GoodTable(r)
  {
    if policy.historyRevisions.None? && policy.decisionEvents.None? then {}
    else r.table.Keys - Reachable(GraphOf(r), Starts(r, roots))
  }

  // ---------------------------------------------------------------- the plan

  function ReaderOf(base: Reader, t: Tables): Reader { base.(table := t.objects) }

  function BlockedPlan(t: Tables, run: string, policy: Policy): Plan
  {
    Plan(run, policy, t.mutation, false, {}, {}, {}, {})
  }

  /** The plan of a Run, or nothing when planning raises. */
  ghost function PlanOf(base: Reader, t: Tables, run: string, policy: Policy): Option<Plan>
  {
    if run in t.disposed || run !in t.current then None
    else
      var all, protected := RevisionsOf(t.revisions, run), Protected(t, run, policy);
      var history := HistoryCandidates(t.history, run, protected);
      var events := EventCandidates(t.events, t.cursors, run, policy);
      var roots := Roots(t, history, events);
      if t.current[run] !in all || !(protected <= all) || !ContentOk(ReaderOf(base, t), roots)
      then Some(BlockedPlan(t, run, policy))
      else Some(Plan(run, policy, t.mutation, true, history, all - protected, events,
                     ObjectCandidates(ReaderOf(base, t), roots, policy)))
  }

  function Greatest(s: set<nat>): (m: nat)
    requires s != {}
    ensures m in s && forall x :: x in s ==> x <= m
  {
    GreatestExists(s);
    var m :| m in s && forall x :: x in s ==> x <= m;
    m
  }

  lemma {:induction false} GreatestExists(s: set<nat>)
    requires s != {}
    ensures exists m :: m in s && forall x :: x in s ==> x <= m
    decreases s
  {
    var y :| y in s;
    if s - {y} != {} {
      GreatestExists(s - {y});
      var m :| m in s - {y} && forall x :: x in s - {y} ==> x <= m;
      var best := if m < y then y else m;
      forall x | x in s ensures x <= best {
        assert x == y || x in s - {y};
      }
      assert best in s;
    } else {
      assert s == {y};
    }
  }

  /** The watermark below which decision events of the Run may be gone. */
  function Raised(t: Tables, plan: Plan): map<string, nat>
  {
    if plan.events == {} || plan.run !in t.expiredThrough then t.expiredThrough
    else t.expiredThrough[plan.run := Max(t.expiredThrough[plan.run], Greatest(plan.events))]
  }

  function ResultOf(plan: Plan, operation: string): Result
  {
    Result(operation, plan, |plan.history|, |plan.revisions|, |plan.events|, |plan.objects|,
           if plan.events == {} then None else Some(Greatest(plan.events)))
  }

  function Tagged(run: string, revisions: set<nat>): set<RunRevision>
  {
    set x | x in revisions :: RunRevision(run, x)
  }

  /** The row writes of an application, each of which advances the mutation clock. */
  function Writes(plan: Plan): nat
  {
    |plan.history| + 2 * |plan.revisions| + |plan.events| + (if plan.events == {} then 0 else 1)
    + |plan.objects| + 1
  }

  /** The tables after a plan was applied. */
  function Applied(t: Tables, plan: Plan, operation: string): Tables
  {
    t.(history := t.history - plan.history,
       expired := t.expired + Tagged(plan.run, plan.revisions),
       revisions := t.revisions - Tagged(plan.run, plan.revisions),
       events := t.events - plan.events,
       expiredThrough := Raised(t, plan),
       objects := t.objects - plan.objects,
       operations := t.operations[operation := ResultOf(plan, operation)],
       mutation := t.mutation + Writes(plan))
  }
}
