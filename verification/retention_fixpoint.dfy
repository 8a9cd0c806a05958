/** Applying a plan leaves nothing for the same policy to do. */
module RetentionFixpoint {
  import opened StrictJson
  import opened TypedNode
  import opened ContentDecoding
  import opened ContentCodec
  import opened Content
  import opened ContentGraph
  import opened GraphLaws
  import opened RetentionPlan
  import opened RetentionLaws

  // ---------------------------------------------------------------- smaller graphs

  /** `small` is `g` cut down to the objects in `kept`. */
  ghost predicate CutTo(g: Graph, small: Graph, kept: set<string>)
  {
    && small.nodes.Keys == small.sizes.Keys == kept && kept <= g.nodes.Keys && kept <= g.sizes.Keys
    && forall d :: d in kept ==> small.nodes[d] == g.nodes[d] && small.sizes[d] == g.sizes[d]
  }

  /** References that stay within the kept objects are covered by the smaller memo. */
  lemma CoversKept(g: Graph, small: Graph, kept: set<string>, h: Memos, k: Memos, node: Json)
    requires CutTo(g, small, kept) && k.Keys == kept && (forall d :: d in k ==> d in h && k[d] == h[d])
    requires Shape(node) && Covers(g, h, Refs(node)) && Targets(Refs(node)) <= kept
    ensures Covers(small, k, Refs(node))
    ensures Tall(k, node) == Tall(h, node) && Links(k, node) == Links(h, node) && Below(k, node) == Below(h, node)
  {
    hide Refs, Shape, Tall, Links, Below;
    forall x | x in Refs(node) ensures x.0 in kept {
      assert x.0 in Targets(Refs(node));
    }
    MeasuresAgree(h, k, node);
  }

  lemma MemoCut(g: Graph, small: Graph, kept: set<string>, h: Memos) returns (k: Memos)
    requires CutTo(g, small, kept) && ValidMemo(g, h) && kept <= h.Keys && Closed(g, kept)
    ensures k.Keys == kept && (forall d :: d in k ==> d in h && k[d] == h[d])
    ensures ValidMemo(small, k)
  {
    k := map d | d in kept :: h[d];
    hide ValidMemo, CutTo, Closed;
    MemoCutAgain(g, small, kept, h, k);
  }

  lemma MemoCutAgain(g: Graph, small: Graph, kept: set<string>, h: Memos, k: Memos)
    requires CutTo(g, small, kept) && ValidMemo(g, h) && kept <= h.Keys && Closed(g, kept)
    requires k.Keys == kept && (forall d :: d in k ==> d in h && k[d] == h[d])
    ensures ValidMemo(small, k)
  {
    hide Tall, Links, Below, Refs, Shape, Covers;
    forall d | d in k
      ensures Covers(small, k, Refs(small.nodes[d]))
      ensures Tall(k, small.nodes[d]) == Tall(h, g.nodes[d]) && Links(k, small.nodes[d]) == Links(h, g.nodes[d])
      ensures Below(k, small.nodes[d]) == Below(h, g.nodes[d])
    {
      CoversKept(g, small, kept, h, k, g.nodes[d]);
    }
  }

  lemma ReachableCut(g: Graph, small: Graph, kept: set<string>, start: set<string>)
    requires CutTo(g, small, kept) && kept == Reachable(g, start) && start <= kept && Closed(g, kept)
    ensures Reachable(small, start) == kept
  {
    hide Refs, Shape;
    forall x | x in kept ensures x in Reachable(small, start) {
      forall s: set<string> | start <= s && Closed(small, s) ensures x in s {
        var inner := s * kept;
        assert Closed(g, inner) by {
          forall d | d in inner && d in g.nodes && Shape(g.nodes[d])
            ensures Targets(Refs(g.nodes[d])) <= inner
          {
            assert d in small.nodes && small.nodes[d] == g.nodes[d];
          }
        }
        assert start <= inner;
      }
    }
  }

  // ---------------------------------------------------------------- smaller tables

  /** `q` is `r` with its table cut down to the set `kept`. */
  ghost predicate Restricted(r: Reader, q: Reader, kept: set<string>)
  {
    && r.loads == q.loads && r.codec == q.codec
    && q.table.Keys == kept <= r.table.Keys
    && forall d :: d in kept ==> q.table[d] == r.table[d]
  }

  lemma GoodObjectSame(r: Reader, q: Reader, d: string)
    requires r.loads == q.loads && r.codec == q.codec
    requires d in r.table && d in q.table && q.table[d] == r.table[d]
    ensures GoodObject(r, d) == GoodObject(q, d)
  {
    ParseSame(r, q, r.table[d].encoded);
    hide Measurable, NodeSize, Parse;
  }

  lemma RestrictedGood(r: Reader, q: Reader, kept: set<string>)
    requires GoodTable(r) && Restricted(r, q, kept)
    ensures GoodTable(q) && CutTo(GraphOf(r), GraphOf(q), kept)
  {
    hide GoodObject, Parse, Shape;
    forall d | d in q.table ensures GoodObject(q, d) && Parse(q, q.table[d].encoded) == Parse(r, r.table[d].encoded) {
      GoodObjectSame(r, q, d);
      ParseSame(r, q, r.table[d].encoded);
    }
    GraphRestricted(r, q, kept);
  }

  lemma GraphRestricted(r: Reader, q: Reader, kept: set<string>)
    requires GoodTable(r) && GoodTable(q) && Restricted(r, q, kept)
    requires forall d :: d in q.table ==> Parse(q, q.table[d].encoded) == Parse(r, r.table[d].encoded)
    ensures CutTo(GraphOf(r), GraphOf(q), kept)
  {
    hide Parse, Shape, NodeSize, Measurable;
  }

  lemma RootsSame(r: Reader, q: Reader, roots: set<string>)
    requires r.loads == q.loads && r.codec == q.codec
    ensures forall text :: RootNode(q, text) == RootNode(r, text) && RootTargets(q, text) == RootTargets(r, text)
    ensures Starts(q, roots) == Starts(r, roots)
  {
    forall text ensures RootNode(q, text) == RootNode(r, text) {
      if CONTENT_PREFIX <= text {
        ParseSame(r, q, text[|CONTENT_PREFIX|..]);
      }
    }
    hide RootNode, Refs, Shape;
  }

  lemma RootStaysOk(
    r: Reader, q: Reader, g: Graph, small: Graph, kept: set<string>, h: Memos, k: Memos, roots: set<string>,
    text: string)
    requires r.loads == q.loads && r.codec == q.codec && CutTo(g, small, kept)
    requires k.Keys == kept && (forall d :: d in k ==> d in h && k[d] == h[d])
    requires text in roots && Starts(r, roots) <= kept && RootOk(r, g, h, text)
    ensures RootOk(q, small, k, text)
  {
    if CONTENT_PREFIX <= text {
      hide *;
      TypedRootStaysOk(r, q, g, small, kept, h, k, roots, text);
    } else {
      hide LegacyOk, Parse, Decode, Utf8Size, Starts, CutTo;
    }
  }

  lemma TypedRootStaysOk(
    r: Reader, q: Reader, g: Graph, small: Graph, kept: set<string>, h: Memos, k: Memos, roots: set<string>,
    text: string)
    requires r.loads == q.loads && r.codec == q.codec && CutTo(g, small, kept)
    requires k.Keys == kept && (forall d :: d in k ==> d in h && k[d] == h[d])
    requires text in roots && Starts(r, roots) <= kept && RootOk(r, g, h, text) && CONTENT_PREFIX <= text
    ensures RootOk(q, small, k, text)
  {
    RootsSame(r, q, roots);
    var node := RootNode(r, text).value;
    MeasurableShape(r, node);
    hide Refs, Shape, Parse, Tall, Measurable, NodeSize, CutTo, Covers;
    forall x | x in Targets(Refs(node)) ensures x in kept {
      assert x in RootTargets(r, text);
      assert x in Starts(r, roots);
    }
    CoversKept(g, small, kept, h, k, node);
  }

  /** Cutting the table down to what the roots reach keeps the content acceptable, and
      leaves nothing unreachable. */
  lemma KeptContentOk(r: Reader, q: Reader, roots: set<string>, policy: Policy)
    requires ContentOk(r, roots)
    requires r.loads == q.loads && r.codec == q.codec
    requires q.table == r.table - ObjectCandidates(r, roots, policy)
    ensures ContentOk(q, roots) && ObjectCandidates(q, roots, policy) == {}
  {
    hide GoodTable, GraphOf, AcceptsAll, Starts, Reachable, Closed;
    if policy.historyRevisions.None? && policy.decisionEvents.None? {
      assert q.table == r.table;
      assert q == r;
    } else {
      ReachableIsClosed(r, roots);
      var kept := Reachable(GraphOf(r), Starts(r, roots));
      assert kept <= r.table.Keys by { ReachableExists(r, roots); }
      KeptAccepted(r, q, roots, kept);
    }
  }

  lemma ReachableExists(r: Reader, roots: set<string>)
    requires GoodTable(r)
    ensures Reachable(GraphOf(r), Starts(r, roots)) <= r.table.Keys
  {
    hide GoodObject, Closed, Starts;
  }

  lemma KeptAccepted(r: Reader, q: Reader, roots: set<string>, kept: set<string>)
    requires ContentOk(r, roots) && Restricted(r, q, kept)
    requires kept == Reachable(GraphOf(r), Starts(r, roots))
    requires Starts(r, roots) <= kept && Closed(GraphOf(r), kept)
    ensures ContentOk(q, roots) && Reachable(GraphOf(q), Starts(q, roots)) == q.table.Keys
  {
    hide RootOk, Starts, Reachable, Closed, GoodTable, ValidMemo, GraphOf, CutTo;
    var h :| AcceptsAll(r, h, roots);
    RestrictedGood(r, q, kept);
    var k := MemoCut(GraphOf(r), GraphOf(q), kept, h);
    forall text | text in roots ensures RootOk(q, GraphOf(q), k, text) {
      RootStaysOk(r, q, GraphOf(r), GraphOf(q), kept, h, k, roots, text);
    }
    assert AcceptsAll(q, k, roots);
    RootsSame(r, q, roots);
    ReachableCut(GraphOf(r), GraphOf(q), kept, Starts(r, roots));
  }

  /** The texts that stay after an application are exactly the retained roots of its plan. */
  lemma RootsAfter(t: Tables, u: Tables, history: set<HistoryKey>, events: set<nat>)
    requires u.items == t.items && u.recoveries == t.recoveries
    requires u.history == t.history - history && u.events == t.events - events
    ensures Roots(u, {}, {}) == Roots(t, history, events)
  {
    hide Roots;
    HistoryTextsAfter(t.history, history);
    EventTextsAfter(t.events, events);
    RootsByPart(t, history, events);
    RootsByPart(u, {}, {});
  }

  function HistoryTexts(history: map<HistoryKey, string>, gone: set<HistoryKey>): set<string>
  {
    set k | k in history && k !in gone :: history[k]
  }

  function EventTexts(events: map<nat, Event>, gone: set<nat>): set<string>
  {
    set e | e in events && e !in gone :: events[e].payload
  }

  function OtherTexts(items: map<ItemKey, string>, recoveries: map<string, Recovery>): set<string>
  {
    (set k | k in items :: items[k])
    + (set x | x in recoveries :: recoveries[x].decision)
    + (set x | x in recoveries :: recoveries[x].manifest)
    + (set x | x in recoveries && recoveries[x].applicationState.Some? :: recoveries[x].applicationState.value)
  }

  lemma RootsByPart(t: Tables, history: set<HistoryKey>, events: set<nat>)
    ensures Roots(t, history, events)
         == OtherTexts(t.items, t.recoveries) + HistoryTexts(t.history, history) + EventTexts(t.events, events)
  {
  }

  lemma HistoryTextsAfter(history: map<HistoryKey, string>, gone: set<HistoryKey>)
    ensures HistoryTexts(history - gone, {}) == HistoryTexts(history, gone)
  {
    forall text | text in HistoryTexts(history, gone) ensures text in HistoryTexts(history - gone, {}) {
      var k :| k in history && k !in gone && history[k] == text;
      assert k in history - gone && (history - gone)[k] == text;
    }
  }

  lemma EventTextsAfter(events: map<nat, Event>, gone: set<nat>)
    ensures EventTexts(events - gone, {}) == EventTexts(events, gone)
  {
    forall text | text in EventTexts(events, gone) ensures text in EventTexts(events - gone, {}) {
      var e :| e in events && e !in gone && events[e].payload == text;
      assert e in events - gone && (events - gone)[e].payload == text;
    }
  }

  lemma PlanParts(base: Reader, t: Tables, run: string, policy: Policy)
    requires PlanOf(base, t, run, policy).Some? && PlanOf(base, t, run, policy).value.applicable
    ensures run !in t.disposed && run in t.current
    ensures var plan := PlanOf(base, t, run, policy).value;
            var all, protected := RevisionsOf(t.revisions, run), Protected(t, run, policy);
            && protected <= all && plan.run == run && plan.policy == policy
            && plan.history == HistoryCandidates(t.history, run, protected)
            && plan.events == EventCandidates(t.events, t.cursors, run, policy)
            && plan.revisions == all - protected
  {
    hide Roots, ContentOk, ObjectCandidates, HistoryCandidates, EventCandidates, Protected, RevisionsOf;
  }

  /** Planning again under the same policy, with no write in between, is possible and finds
      no revision, history row, event or object to delete. */
  lemma ReplanIsEmpty(base: Reader, t: Tables, run: string, policy: Policy, operation: string)
    requires PlanOf(base, t, run, policy).Some? && PlanOf(base, t, run, policy).value.applicable
    ensures var u := Applied(t, PlanOf(base, t, run, policy).value, operation);
            PlanOf(base, u, run, policy) == Some(Plan(run, policy, u.mutation, true, {}, {}, {}, {}))
  {
    hide Roots, ContentOk, ObjectCandidates, HistoryCandidates, EventCandidates, Protected, RevisionsOf, Applied,
         Tagged, PlanOf;
    var plan := PlanOf(base, t, run, policy).value;
    var u := Applied(t, plan, operation);
    PlanParts(base, t, run, policy);
    PlanContent(base, t, run, policy);
    AppliedTables(t, plan, operation);
    ProtectedStable(t, u, run, policy);
    CurrentIsProtected(u, run, policy);
    NoMoreHistory(t.history, run, Protected(t, run, policy));
    NoMoreEvents(t.events, t.cursors, run, policy);
    RootsAfter(t, u, plan.history, plan.events);
    KeptContentOk(ReaderOf(base, t), ReaderOf(base, u), Roots(t, plan.history, plan.events), policy);
    EmptyPlan(base, u, run, policy);
  }

  lemma EmptyPlan(base: Reader, u: Tables, run: string, policy: Policy)
    requires run !in u.disposed && run in u.current
    requires Protected(u, run, policy) == RevisionsOf(u.revisions, run) && u.current[run] in Protected(u, run, policy)
    requires HistoryCandidates(u.history, run, Protected(u, run, policy)) == {}
    requires EventCandidates(u.events, u.cursors, run, policy) == {}
    requires ContentOk(ReaderOf(base, u), Roots(u, {}, {}))
    requires ObjectCandidates(ReaderOf(base, u), Roots(u, {}, {}), policy) == {}
    ensures PlanOf(base, u, run, policy) == Some(Plan(run, policy, u.mutation, true, {}, {}, {}, {}))
  {
    hide Roots, ContentOk, ObjectCandidates, HistoryCandidates, EventCandidates, Protected, RevisionsOf, ReaderOf;
    assert RevisionsOf(u.revisions, run) - Protected(u, run, policy) == {};
  }

  lemma CurrentIsProtected(t: Tables, run: string, policy: Policy)
    requires run in t.current
    ensures t.current[run] in Protected(t, run, policy)
  {
  }

  lemma AppliedTables(t: Tables, plan: Plan, operation: string)
    ensures var u := Applied(t, plan, operation);
            && u.current == t.current && u.receipts == t.receipts && u.disposed == t.disposed
            && u.items == t.items && u.recoveries == t.recoveries && u.cursors == t.cursors
            && u.history == t.history - plan.history && u.events == t.events - plan.events
            && u.revisions == t.revisions - Tagged(plan.run, plan.revisions)
            && u.objects == t.objects - plan.objects
  {
  }
}
