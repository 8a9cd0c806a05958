/** What applying a retention plan keeps, and why planning again finds nothing to do. */
module RetentionLaws {
  import opened StrictJson
  import opened TypedNode
  import opened ContentDecoding
  import opened ContentCodec
  import opened Content
  import opened ContentGraph
  import opened GraphLaws
  import opened RetentionPlan
  import opened Sums

  // ---------------------------------------------------------------- history baselines

  /** For every protected revision the latest row of each field is the same row, with the
      same value, before and after the candidates are deleted. */
  lemma BaselinesSurvive(history: map<HistoryKey, string>, run: string, protected: set<nat>, key: HistoryKey, p: nat)
    requires p in protected && key.run == run
    ensures var after := history - HistoryCandidates(history, run, protected);
            && (IsBaseline(history, key, p) <==> IsBaseline(after, key, p))
            && (IsBaseline(history, key, p) ==> key in after && after[key] == history[key])
  {
    var after := history - HistoryCandidates(history, run, protected);
    if IsBaseline(history, key, p) {
      assert key in Baselines(history, run, protected);
    }
    if IsBaseline(after, key, p) && !IsBaseline(history, key, p) {
      var other :| other in history && SameField(other, key) && other.revision <= p
                   && other.revision > key.revision;
      var best := LatestRow(history, other, p);
      assert false;
    }
  }

  /** Some row of a field is its baseline whenever a row lies at or below the revision. */
  lemma {:induction false} LatestRow(history: map<HistoryKey, string>, start: HistoryKey, p: nat)
    returns (best: HistoryKey)
    requires start in history && start.revision <= p
    ensures IsBaseline(history, best, p) && SameField(best, start) && best.revision >= start.revision
    decreases p - start.revision
  {
    if IsBaseline(history, start, p) {
      best := start;
    } else {
      var other :| other in history && SameField(other, start) && other.revision <= p
                   && other.revision > start.revision;
      best := LatestRow(history, other, p);
    }
  }

  /** Every row of the Run that is kept is the baseline of some protected revision, and no
      row of another Run is touched. */
  lemma KeptRowsAreBaselines(history: map<HistoryKey, string>, run: string, protected: set<nat>, key: HistoryKey)
    requires key in history
    ensures var after := history - HistoryCandidates(history, run, protected);
            if key.run == run then key in after <==> exists p :: p in protected && IsBaseline(after, key, p)
            else key in after && after[key] == history[key]
  {
    var after := history - HistoryCandidates(history, run, protected);
    if key.run == run {
      if key in after {
        var p :| p in protected && IsBaseline(history, key, p);
        BaselinesSurvive(history, run, protected, key, p);
      }
    }
  }

  /** Deleting the candidates leaves none. */
  lemma NoMoreHistory(history: map<HistoryKey, string>, run: string, protected: set<nat>)
    ensures HistoryCandidates(history - HistoryCandidates(history, run, protected), run, protected) == {}
  {
    var after := history - HistoryCandidates(history, run, protected);
    forall key | key in after && key.run == run ensures key in Baselines(after, run, protected) {
      KeptRowsAreBaselines(history, run, protected, key);
    }
  }

  // ---------------------------------------------------------------- recent members

  /** The recent members of a large enough set fill their quota. */
  lemma {:induction false} RecentFills(s: set<nat>, k: nat)
    requires |s| >= k
    ensures |Recent(s, k)| >= k
    decreases k
  {
    if k > 0 {
      var m := Greatest(s);
      var rest := s - {m};
      RecentFills(rest, k - 1);
      assert Beyond(s, m) == {};
      forall x | x in Recent(rest, k - 1) ensures x in Recent(s, k) && x != m {
        assert Beyond(s, x) == Beyond(rest, x) + {m};
      }
      CardinalityBound(Recent(rest, k - 1) + {m}, Recent(s, k));
    }
  }

  /** Dropping members that are not recent changes nothing about which are recent. */
  lemma RecentStable(s: set<nat>, part: set<nat>, k: nat)
    requires Recent(s, k) <= part <= s
    ensures Recent(part, k) == Recent(s, k)
  {
    forall x | x in part ensures x in Recent(part, k) <==> x in Recent(s, k) {
      assert Beyond(part, x) <= Beyond(s, x);
      CardinalityBound(Beyond(part, x), Beyond(s, x));
      if x in Recent(part, k) && x !in Recent(s, k) {
        RecentAbove(s, x, k);
        CardinalityBound(Recent(Beyond(s, x), k), Beyond(part, x));
        assert false;
      }
    }
  }

  /** When at least `k` members lie above `x`, the recent members of those are recent overall. */
  lemma RecentAbove(s: set<nat>, x: nat, k: nat)
    requires |Beyond(s, x)| >= k
    ensures Recent(Beyond(s, x), k) <= Recent(s, k) && |Recent(Beyond(s, x), k)| >= k
  {
    var upper := Beyond(s, x);
    RecentFills(upper, k);
    forall y | y in Recent(upper, k) ensures y in Recent(s, k) {
      assert Beyond(upper, y) == Beyond(s, y);
    }
  }

  // ---------------------------------------------------------------- events

  /** No deleted event is ahead of a subscription of its Run. */
  lemma DeletedEventsWerePassed(t: Tables, run: string, policy: Policy, e: nat, c: CursorKey)
    requires e in EventCandidates(t.events, t.cursors, run, policy)
    requires c in t.cursors && c.run == run
    ensures e <= t.cursors[c]
    ensures e in t.events && t.events[e].run == run && t.events[e].kind == DECIDED
  {
  }

  /** Readers that resume at their cursor miss nothing: each Run's expiry mark is at or
      below every cursor of that Run. */
  ghost predicate CursorsCovered(t: Tables)
  {
    forall c :: c in t.cursors && c.run in t.expiredThrough ==> t.expiredThrough[c.run] <= t.cursors[c]
  }

  lemma ApplyingKeepsCursorsCovered(base: Reader, t: Tables, run: string, policy: Policy, operation: string)
    requires CursorsCovered(t) && PlanOf(base, t, run, policy).Some?
    ensures CursorsCovered(Applied(t, PlanOf(base, t, run, policy).value, operation))
  {
    hide ContentOk, Protected, Roots, ObjectCandidates, HistoryCandidates;
    var plan := PlanOf(base, t, run, policy).value;
    assert plan.events == {} || plan.events == EventCandidates(t.events, t.cursors, run, policy);
    if plan.events != {} {
      forall c | c in t.cursors && c.run == run ensures Greatest(plan.events) <= t.cursors[c] {
        DeletedEventsWerePassed(t, run, policy, Greatest(plan.events), c);
      }
    }
  }

  lemma NoMoreEvents(events: map<nat, Event>, cursors: map<CursorKey, nat>, run: string, policy: Policy)
    ensures EventCandidates(events - EventCandidates(events, cursors, run, policy), cursors, run, policy) == {}
  {
    var gone := EventCandidates(events, cursors, run, policy);
    var after := events - gone;
    assert Decisions(after, run) == Decisions(events, run) - gone;
    if policy.decisionEvents.Some? {
      RecentStable(Decisions(events, run), Decisions(after, run), policy.decisionEvents.value);
    }
  }

  // ---------------------------------------------------------------- revisions

  lemma RevisionsAfter(rows: set<RunRevision>, run: string, gone: set<nat>)
    ensures RevisionsOf(rows - Tagged(run, gone), run) == RevisionsOf(rows, run) - gone
  {
    var after := rows - Tagged(run, gone);
    forall x ensures x in RevisionsOf(after, run) <==> x in RevisionsOf(rows, run) - gone {
      if x in RevisionsOf(rows, run) && x !in gone {
        assert RunRevision(run, x) in after;
      }
    }
  }

  /** After the unprotected revisions are gone, the protected ones are the same and all. */
  lemma ProtectedStable(t: Tables, u: Tables, run: string, policy: Policy)
    requires run in t.current && u.current == t.current && u.receipts == t.receipts
    requires Protected(t, run, policy) <= RevisionsOf(t.revisions, run)
    requires u.revisions
          == t.revisions - Tagged(run, RevisionsOf(t.revisions, run) - Protected(t, run, policy))
    ensures Protected(u, run, policy) == Protected(t, run, policy) == RevisionsOf(u.revisions, run)
  {
    var all, protected := RevisionsOf(t.revisions, run), Protected(t, run, policy);
    RevisionsAfter(t.revisions, run, all - protected);
    assert RevisionsOf(u.revisions, run) == protected;
    if policy.historyRevisions.Some? {
      RecentStable(all, protected, policy.historyRevisions.value);
    }
  }

  // ---------------------------------------------------------------- reachable content

  /** The declared set of reachable objects is the one that the memoised walk computes. */
  lemma ReachIsReachable(g: Graph, start: set<string>, reached: set<string>)
    requires IsReach(g, start, reached) && reached <= g.nodes.Keys
    ensures Reachable(g, start) == reached
  {
  }

  ghost function BelowRoot(r: Reader, h: Memos, text: string): set<string>
  {
    var node := RootNode(r, text);
    if node.Some? && Shape(node.value) then Below(h, node.value) else {}
  }

  lemma RootReach(r: Reader, h: Memos, roots: set<string>, text: string)
    requires GoodTable(r) && AcceptsAll(r, h, roots) && text in roots
    ensures IsReach(GraphOf(r), RootTargets(r, text), BelowRoot(r, h, text))
    ensures BelowRoot(r, h, text) <= r.table.Keys
  {
    var node := RootNode(r, text);
    if node.Some? {
      hide Tall, Links, Below, Refs, ValidMemo, Parse, ValueOf, GoodObject, Shape;
      assert RootOk(r, GraphOf(r), h, text);
      assert Shape(node.value) by { MeasurableShape(r, node.value); }
      BelowIsReach(GraphOf(r), h, node.value);
    } else {
      assert RootTargets(r, text) == {} && BelowRoot(r, h, text) == {};
    }
  }

  lemma MeasurableShape(r: Reader, node: Json)
    requires Measurable(node, 0, r.codec.maxDepth, r.codec.maximum)
    ensures Shape(node)
  {
  }

  /** What all the roots of an accepted store reach is exactly the reachable set. */
  lemma RootsReach(r: Reader, h: Memos, roots: set<string>)
    requires GoodTable(r) && AcceptsAll(r, h, roots)
    ensures var reached := Reachable(GraphOf(r), Starts(r, roots));
            && IsReach(GraphOf(r), Starts(r, roots), reached)
            && reached == set text, x | text in roots && x in BelowRoot(r, h, text) :: x
  {
    var g := GraphOf(r);
    var start := Starts(r, roots);
    var reached := set text, x | text in roots && x in BelowRoot(r, h, text) :: x;
    forall text | text in roots
      ensures IsReach(g, RootTargets(r, text), BelowRoot(r, h, text))
      ensures BelowRoot(r, h, text) <= g.nodes.Keys
    {
      RootReach(r, h, roots, text);
    }
    hide BelowRoot, RootTargets, AcceptsAll, GraphOf, GoodTable, Refs, Shape;
    forall x | x in start ensures x in reached {
      var text :| text in roots && x in RootTargets(r, text);
      assert RootTargets(r, text) <= BelowRoot(r, h, text);
    }
    forall d | d in reached && d in g.nodes && Shape(g.nodes[d])
      ensures Targets(Refs(g.nodes[d])) <= reached
    {
      var text :| text in roots && d in BelowRoot(r, h, text);
      assert Closed(g, BelowRoot(r, h, text));
      assert forall y :: y in BelowRoot(r, h, text) ==> y in reached;
    }
    forall s: set<string> | start <= s && Closed(g, s) ensures reached <= s {
      forall x | x in reached ensures x in s {
        var text :| text in roots && x in BelowRoot(r, h, text);
        assert forall y :: y in RootTargets(r, text) ==> y in start;
        assert BelowRoot(r, h, text) <= s;
      }
    }
    ReachIsReachable(g, start, reached);
  }

  /** A retained root means the same before and after the unreachable objects are gone, for every
      decoder with the same parser, whatever its limits: one that refuses it now refused it before. */
  lemma RetainedRootKeepsValue(
    base: Reader, t: Tables, run: string, policy: Policy, operation: string, text: string, other: Reader)
    requires PlanOf(base, t, run, policy).Some? && PlanOf(base, t, run, policy).value.applicable
    requires var plan := PlanOf(base, t, run, policy).value; text in Roots(t, plan.history, plan.events)
    requires other.loads == base.loads
    ensures var u := Applied(t, PlanOf(base, t, run, policy).value, operation);
            ValueOf(ReaderOf(other, u), text) == ValueOf(ReaderOf(other, t), text)
  {
    var plan := PlanOf(base, t, run, policy).value;
    var roots := Roots(t, plan.history, plan.events);
    PlanContent(base, t, run, policy);
    AppliedObjects(t, plan, operation);
    hide Roots, PlanOf, Applied, ValueOf, ObjectCandidates, ContentOk;
    UnreachableDoesNotMatter(ReaderOf(base, t), roots, policy, text, ReaderOf(other, t),
      ReaderOf(other, Applied(t, plan, operation)));
  }

  lemma PlanContent(base: Reader, t: Tables, run: string, policy: Policy)
    requires PlanOf(base, t, run, policy).Some? && PlanOf(base, t, run, policy).value.applicable
    ensures var plan := PlanOf(base, t, run, policy).value;
            var r, roots := ReaderOf(base, t), Roots(t, plan.history, plan.events);
            ContentOk(r, roots) && plan.objects == ObjectCandidates(r, roots, policy)
  {
    hide Roots, ContentOk, ObjectCandidates, Protected, HistoryCandidates, EventCandidates;
  }

  lemma UnreachableDoesNotMatter(r: Reader, roots: set<string>, policy: Policy, text: string, v: Reader, q: Reader)
    requires ContentOk(r, roots) && text in roots
    requires v.loads == r.loads && v.table == r.table && q.loads == v.loads && q.codec == v.codec
    requires q.table == r.table - ObjectCandidates(r, roots, policy)
    ensures ValueOf(q, text) == ValueOf(v, text)
  {
    hide GoodTable, GraphOf, ValueOf, AcceptsAll, Starts, Reachable, Closed, Confines, RootTargets, Agrees;
    ReachableIsClosed(r, roots);
    var reached := Reachable(GraphOf(r), Starts(r, roots));
    ClosedConfines(r, reached, v);
    RootConfined(r, roots, text, v);
    StartsCover(r, roots, text);
    AgreeOnReached(r, roots, policy, v, q);
    hide ContentOk, ObjectCandidates;
    TextFrame(v, q, reached, text);
  }

  /** Only unreachable objects are candidates. */
  lemma AgreeOnReached(r: Reader, roots: set<string>, policy: Policy, v: Reader, q: Reader)
    requires GoodTable(r) && v.table == r.table && q.loads == v.loads && q.codec == v.codec
    requires q.table == r.table - ObjectCandidates(r, roots, policy)
    ensures Agrees(v, q, Reachable(GraphOf(r), Starts(r, roots)))
  {
    hide GoodTable, GraphOf, AcceptsAll, Starts, Reachable;
  }

  lemma StartsCover(r: Reader, roots: set<string>, text: string)
    requires text in roots
    ensures RootTargets(r, text) <= Starts(r, roots)
  {
    hide RootTargets;
  }

  /** What two readers parse, they parse alike. */
  lemma ParsedAlike(r: Reader, v: Reader, text: string)
    requires v.loads == r.loads && Parse(r, text).Some? && Parse(v, text).Some?
    ensures Parse(v, text) == Parse(r, text)
  {
    hide Strict, Canonical, Utf8Size;
  }

  /** Every root was parsed when the plan was made, so no other reader finds other references in it. */
  lemma RootConfined(r: Reader, roots: set<string>, text: string, v: Reader)
    requires ContentOk(r, roots) && text in roots && v.loads == r.loads
    ensures RootTargets(v, text) <= RootTargets(r, text)
  {
    hide Parse, Refs, Shape, Measurable, NodeSize, Tall, Covers, ValueOf, GoodTable, ValidMemo, GraphOf;
    var h :| AcceptsAll(r, h, roots);
    assert RootOk(r, GraphOf(r), h, text);
    if RootNode(v, text).Some? { ParsedAlike(r, v, text[|CONTENT_PREFIX|..]); }
  }

  lemma ReachableIsClosed(r: Reader, roots: set<string>)
    requires ContentOk(r, roots)
    ensures var reached := Reachable(GraphOf(r), Starts(r, roots));
            Starts(r, roots) <= reached && Closed(GraphOf(r), reached)
  {
    hide GoodTable, GraphOf, AcceptsAll, Starts, Reachable, Closed, BelowRoot;
    var h :| AcceptsAll(r, h, roots);
    RootsReach(r, h, roots);
  }

  lemma AppliedObjects(t: Tables, plan: Plan, operation: string)
    ensures Applied(t, plan, operation).objects == t.objects - plan.objects
  {
  }

  lemma ClosedConfines(r: Reader, s: set<string>, v: Reader)
    requires GoodTable(r) && Closed(GraphOf(r), s) && v.loads == r.loads && v.table == r.table
    ensures Confines(v, s)
  {
    hide Refs, Shape, NodeSize, Measurable, Parse;
    forall d | d in s && d in v.table
      ensures var body := Parse(v, v.table[d].encoded);
              body.Some? && Shape(body.value) ==> Targets(Refs(body.value)) <= s
    {
      assert GoodObject(r, d);
      if Parse(v, v.table[d].encoded).Some? { ParsedAlike(r, v, v.table[d].encoded); }
    }
  }

  lemma TextFrame(r: Reader, q: Reader, s: set<string>, text: string)
    requires r.loads == q.loads && r.codec == q.codec && Agrees(r, q, s) && Confines(r, s)
    requires RootTargets(r, text) <= s
    ensures ValueOf(r, text) == ValueOf(q, text)
  {
    hide Refs, Shape, Decode, Confines, Agrees, LegacyOk, Utf8Size;
    if CONTENT_PREFIX <= text {
      var node := RootNode(r, text);
      assert node == RootNode(q, text) by { ParseSame(r, q, text[|CONTENT_PREFIX|..]); }
      if node.Some? {
        assert Shape(node.value) ==> Targets(Refs(node.value)) <= s;
        DecodeFrame(r, q, s, node.value, 0, {});
      }
    }
  }

  lemma ParseSame(r: Reader, q: Reader, text: string)
    requires r.loads == q.loads && r.codec == q.codec
    ensures Parse(r, text) == Parse(q, text)
  {
  }

  /** Every deleted object was out of reach of every retained root. */
  lemma DeletedObjectsWereUnreachable(base: Reader, t: Tables, run: string, policy: Policy, d: string)
    requires PlanOf(base, t, run, policy).Some? && PlanOf(base, t, run, policy).value.applicable
    requires d in PlanOf(base, t, run, policy).value.objects
    ensures var plan := PlanOf(base, t, run, policy).value;
            var r := ReaderOf(base, t);
            && GoodTable(r)
            && exists s :: Starts(r, Roots(t, plan.history, plan.events)) <= s && Closed(GraphOf(r), s) && d !in s
  {
    hide Roots, Starts, Closed, GoodObject;
  }

  /** Every retained codec root of an applicable plan still decodes, provided that its text
      fits the encoded limit together with its prefix. */
  lemma RetainedRootDecodes(base: Reader, t: Tables, run: string, policy: Policy, text: string)
    requires PlanOf(base, t, run, policy).Some? && PlanOf(base, t, run, policy).value.applicable
    requires var plan := PlanOf(base, t, run, policy).value; text in Roots(t, plan.history, plan.events)
    requires base.codec.maxDepth == MAX_DEPTH && Utf8Size(text) <= base.codec.encodedLimit
    ensures ValueOf(ReaderOf(base, t), text).Some?
  {
    var plan := PlanOf(base, t, run, policy).value;
    var roots := Roots(t, plan.history, plan.events);
    var r := ReaderOf(base, t);
    assert ContentOk(r, roots);
    hide Roots, PlanOf, GoodTable, GraphOf, Decode, Utf8Size, Parse, LegacyOk, NodeSize, Tall, Refs, ValidMemo;
    var h :| AcceptsAll(r, h, roots);
    assert RootOk(r, GraphOf(r), h, text);
    if CONTENT_PREFIX <= text {
      var node := RootNode(r, text).value;
      MeasurableShape(r, node);
      RootAccepted(r, h, node);
      AcceptedDecodes(r, h, node, 0, {});
    }
  }

  lemma RootAccepted(r: Reader, h: Memos, node: Json)
    requires GoodTable(r) && ValidMemo(GraphOf(r), h) && Shape(node)
    requires Covers(GraphOf(r), h, Refs(node)) && Tall(h, node) <= MAX_DEPTH == r.codec.maxDepth
    ensures Accepted(GraphOf(r), h, node, 0, {}, r.codec.maxDepth)
  {
    hide Tall, Refs, Shape, GraphOf, GoodTable;
    assert Links(h, node) <= MAX_DEPTH by { LinksCapped(GraphOf(r), h, node); }
    hide Links;
  }

  lemma {:induction false} LinksCapped(g: Graph, h: Memos, node: Json)
    requires ValidMemo(g, h) && Shape(node)
    ensures Links(h, node) <= MAX_DEPTH
    decreases node, |Kids(node)| + 1
  {
    LinksByView(h, node);
    hide Tall, Links, Refs, Shape, Below, Look;
    if !Look(node).RefView? {
      KidsLinksCapped(g, h, node, |Kids(node)|);
    }
  }

  lemma {:induction false} KidsLinksCapped(g: Graph, h: Memos, node: Json, n: nat)
    requires ValidMemo(g, h) && Shape(node) && n <= |Kids(node)|
    ensures KidsLinks(h, node, n) <= MAX_DEPTH
    decreases node, n
  {
    hide Tall, Links, Refs, Shape, Below, Look;
    if n > 0 {
      KidsLinksCapped(g, h, node, n - 1);
      LinksCapped(g, h, Kids(node)[n - 1]);
    }
  }
}
