/** Planning and applying retention as retention.py runs it: loops that collect what must
    stay, one traversal object for all content, and one transaction that deletes the rest. */
module Retention {
  import opened StrictJson
  import opened TypedNode
  import opened ContentDecoding
  import opened ContentCodec
  import opened ContentDecoder
  import opened Content
  import opened ContentGraph
  import opened GraphWalk
  import opened GraphLaws
  import opened RetentionPlan
  import opened RetentionLaws

  // ---------------------------------------------------------------- protected revisions

  method ProtectedRevisions(t: Tables, run: string, policy: Policy) returns (protected: set<nat>)
    requires run in t.current
    ensures protected == Protected(t, run, policy)
  {
    protected := {t.current[run]};
    var rest := t.receipts;
    while rest != {}
      invariant rest <= t.receipts
      invariant protected == {t.current[run]} + RevisionsOf(t.receipts - rest, run)
      decreases |rest|
    {
      var row :| row in rest;
      ReceiptTaken(t.receipts, rest, row, run);
      if row.run == run {
        protected := protected + {row.revision};
      }
      rest := rest - {row};
    }
    assert t.receipts - rest == t.receipts;
    var all := RevisionsOf(t.revisions, run);
    if policy.historyRevisions.None? {
      protected := protected + all;
    } else {
      protected := protected + Recent(all, policy.historyRevisions.value);
    }
  }

  lemma ReceiptTaken(rows: set<RunRevision>, rest: set<RunRevision>, row: RunRevision, run: string)
    requires rest <= rows && row in rest
    ensures RevisionsOf(rows - (rest - {row}), run)
         == RevisionsOf(rows - rest, run) + if row.run == run then {row.revision} else {}
  {
    assert rows - (rest - {row}) == rows - rest + {row};
    assert forall x :: x in RevisionsOf(rows - rest + {row}, run) <==>
      x in RevisionsOf(rows - rest, run) || (row.run == run && x == row.revision) by {
      forall x ensures x in RevisionsOf(rows - rest + {row}, run) <==>
        x in RevisionsOf(rows - rest, run) || (row.run == run && x == row.revision) {
        if x in RevisionsOf(rows - rest, run) {
          assert RunRevision(run, x) in rows - rest + {row};
        }
      }
    }
  }

  // ---------------------------------------------------------------- baselines

  /** The rows of one field of a Run. */
  function FieldRows(history: map<HistoryKey, string>, run: string, field: Field): set<HistoryKey>
  {
    set key | key in history && key.run == run && key.field == field
  }

  /** The last row at or below a revision, if there is one. */
  method LatestAt(rows: set<HistoryKey>, revision: nat) returns (best: Option<HistoryKey>)
    ensures best.None? ==> forall key :: key in rows ==> key.revision > revision
    ensures best.Some? ==>
      && best.value in rows && best.value.revision <= revision
      && forall key :: key in rows && key.revision <= revision ==> key.revision <= best.value.revision
  {
    best := None;
    var rest := rows;
    while rest != {}
      invariant rest <= rows
      invariant best.None? ==> forall key :: key in rows && key !in rest ==> key.revision > revision
      invariant best.Some? ==>
        && best.value in rows && best.value.revision <= revision
        && forall key :: key in rows && key !in rest && key.revision <= revision ==>
             key.revision <= best.value.revision
      decreases |rest|
    {
      var key :| key in rest;
      if key.revision <= revision && (best.None? || key.revision > best.value.revision) {
        best := Some(key);
      }
      rest := rest - {key};
    }
  }

  method FindBaselines(history: map<HistoryKey, string>, run: string, protected: set<nat>)
    returns (baselines: set<HistoryKey>)
    ensures baselines == Baselines(history, run, protected)
  {
    baselines := {};
    var fields := set key | key in history && key.run == run :: key.field;
    var rest := fields;
    while rest != {}
      invariant rest <= fields
      invariant baselines == set key | key in Baselines(history, run, protected) && key.field !in rest
      decreases |rest|
    {
      var field :| field in rest;
      var found := FieldBaselines(history, run, field, protected);
      baselines := baselines + found;
      rest := rest - {field};
    }
    assert forall key :: key in Baselines(history, run, protected) ==> key.field in fields;
  }

  method FieldBaselines(history: map<HistoryKey, string>, run: string, field: Field, protected: set<nat>)
    returns (found: set<HistoryKey>)
    ensures found == set key | key in Baselines(history, run, protected) && key.field == field
  {
    found := {};
    var rows, rest := FieldRows(history, run, field), protected;
    while rest != {}
      invariant rest <= protected
      invariant forall key :: key in found <==>
        key in rows && exists p :: p in protected && p !in rest && IsBaseline(history, key, p)
      decreases |rest|
    {
      var p :| p in rest;
      var best := LatestAt(rows, p);
      OneBaseline(history, run, field, p, best);
      if best.Some? {
        found := found + {best.value};
      }
      rest := rest - {p};
    }
  }

  lemma OneBaseline(history: map<HistoryKey, string>, run: string, field: Field, p: nat, best: Option<HistoryKey>)
    requires var rows := FieldRows(history, run, field);
             && (best.None? ==> forall key :: key in rows ==> key.revision > p)
             && (best.Some? ==>
                   && best.value in rows && best.value.revision <= p
                   && forall key :: key in rows && key.revision <= p ==> key.revision <= best.value.revision)
    ensures forall key :: key in FieldRows(history, run, field) ==>
      (IsBaseline(history, key, p) <==> best == Some(key))
  {
    forall key | key in FieldRows(history, run, field)
      ensures IsBaseline(history, key, p) <==> best == Some(key)
    {
      if IsBaseline(history, key, p) {
        assert best.Some? && SameField(best.value, key);
        assert key == best.value;
      }
    }
  }

  // ---------------------------------------------------------------- events

  method FindEventCandidates(
    events: map<nat, Event>, cursors: map<CursorKey, nat>, run: string, policy: Policy)
    returns (candidates: set<nat>)
    ensures candidates == EventCandidates(events, cursors, run, policy)
  {
    hide Recent, Decisions, Unpassed;
    var decisions := Decisions(events, run);
    var recent := if policy.decisionEvents.None? then decisions else Recent(decisions, policy.decisionEvents.value);
    var unpassed := UnpassedOf(cursors, run, decisions);
    candidates := decisions - (recent + unpassed);
  }

  method UnpassedOf(cursors: map<CursorKey, nat>, run: string, decisions: set<nat>) returns (kept: set<nat>)
    ensures kept == set e | e in decisions && Unpassed(cursors, run, e)
  {
    hide Unpassed;
    kept := {};
    var rest := decisions;
    while rest != {}
      invariant rest <= decisions
      invariant kept == set e | e in decisions && e !in rest && Unpassed(cursors, run, e)
      decreases |rest|
    {
      var e :| e in rest;
      var unpassed := IsUnpassed(cursors, run, e);
      if unpassed {
        kept := kept + {e};
      }
      rest := rest - {e};
    }
  }

  method IsUnpassed(cursors: map<CursorKey, nat>, run: string, sequence: nat) returns (unpassed: bool)
    ensures unpassed <==> Unpassed(cursors, run, sequence)
  {
    unpassed := false;
    var rest := cursors.Keys;
    while rest != {}
      invariant rest <= cursors.Keys
      invariant unpassed <==> exists c :: c in cursors && c !in rest && c.run == run && cursors[c] < sequence
      decreases |rest|
    {
      var c :| c in rest;
      if c.run == run && cursors[c] < sequence {
        unpassed := true;
      }
      rest := rest - {c};
    }
  }

  // ---------------------------------------------------------------- content

  /** Parse, hash and measure one stored object. */
  method CheckObject(r: Reader, d: string) returns (node: Option<Json>)
    requires d in r.table
    ensures node.Some? <==> GoodObject(r, d)
    ensures node.Some? ==> node == Parse(r, r.table[d].encoded)
  {
    hide Measurable, NodeSize, Parse;
    var row := r.table[d];
    node := Parse(r, row.encoded);
    if node.None? || r.codec.digest(row.encoded) != d {
      return None;
    }
    var measured := Measure(r.codec, node.value, 0);
    if measured.None? || measured.value != row.size || !(0 <= row.size <= r.codec.maximum) {
      return None;
    }
  }

  /** Parse and check every stored object; nothing if one of them is bad. */
  method BuildGraph(r: Reader) returns (g: Option<Graph>)
    ensures g.Some? <==> GoodTable(r)
    ensures g.Some? ==> g.value == GraphOf(r)
  {
    hide GoodObject, Parse, GraphOf;
    var nodes: map<string, Json> := map[];
    var sizes: map<string, int> := map[];
    var rest := r.table.Keys;
    while rest != {}
      invariant rest <= r.table.Keys
      invariant nodes.Keys == sizes.Keys == r.table.Keys - rest
      invariant forall d :: d in nodes ==>
        GoodObject(r, d) && Parse(r, r.table[d].encoded) == Some(nodes[d]) && sizes[d] == r.table[d].size
      decreases |rest|
    {
      var d :| d in rest;
      var node := CheckObject(r, d);
      if node.None? {
        return None;
      }
      nodes := nodes[d := node.value];
      sizes := sizes[d := r.table[d].size];
      rest := rest - {d};
    }
    assert r.table.Keys - rest == r.table.Keys;
    GraphIs(r, nodes, sizes);
    return Some(Graph(nodes, sizes));
  }

  lemma GraphIs(r: Reader, nodes: map<string, Json>, sizes: map<string, int>)
    requires nodes.Keys == sizes.Keys == r.table.Keys
    requires forall d :: d in nodes ==>
      GoodObject(r, d) && Parse(r, r.table[d].encoded) == Some(nodes[d]) && sizes[d] == r.table[d].size
    ensures GoodTable(r) && (forall d :: d in sizes ==> sizes[d] >= 0) && Graph(nodes, sizes) == GraphOf(r)
  {
    hide Parse, GoodObject;
    forall d | d in sizes ensures sizes[d] >= 0 { GoodSize(r, d); }
  }

  lemma GoodSize(r: Reader, d: string)
    requires GoodObject(r, d)
    ensures d in r.table && r.table[d].size >= 0
  {
    hide Parse, Measurable, NodeSize;
  }

  /** A node of an acceptable store is accepted by the walk from outside. */
  lemma AcceptedIsWitness(g: Graph, h: Memos, node: Json)
    requires ValidMemo(g, h) && Shape(node) && Covers(g, h, Refs(node)) && Tall(h, node) <= MAX_DEPTH
    ensures Witness(g, h, node, {})
  {
    LinksCapped(g, h, node);
    hide ValidMemo, Covers, Tall, Refs, Shape, Links;
  }

  lemma ObjectRef(g: Graph, h: Memos, d: string)
    requires IsDigest(d) && d in g.sizes
    ensures var node := RefNode(d, g.sizes[d]);
            && Shape(node) && Look(node) == RefView(d, g.sizes[d])
            && (Covers(g, h, Refs(node)) <==> d in h)
            && (d in h ==> Tall(h, node) == h[d].height)
  {
    var node := RefNode(d, g.sizes[d]);
    assert Look(node) == RefView(d, g.sizes[d]);
    RefsByView(node);
    LinksByView(h, node);
    hide Look, Refs, Tall;
    if Covers(g, h, Refs(node)) {
      assert (d, g.sizes[d]) in Refs(node);
    }
  }

  /** Walk every object, reachable or not. */
  method WalkObjects(r: Reader, walker: Walker) returns (ok: bool)
    requires GoodTable(r) && walker.g == GraphOf(r) && walker.Valid()
    modifies walker
    ensures walker.Valid()
    ensures ok ==> walker.heights.Keys == r.table.Keys
    ensures !ok ==> forall h, roots :: !AcceptsAll(r, h, roots)
  {
    hide GoodObject, GraphOf, GoodTable, AcceptsAll;
    var rest := r.table.Keys;
    while rest != {}
      invariant rest <= r.table.Keys && walker.Valid()
      invariant forall d :: d in r.table && d !in rest ==> d in walker.heights
      decreases |rest|
    {
      var d :| d in rest;
      ok := WalkObject(r, walker, d);
      if !ok {
        return;
      }
      rest := rest - {d};
    }
    assert walker.heights.Keys <= r.table.Keys by { MemoKeys(walker.g, walker.heights); GraphKeys(r); }
    return true;
  }

  method WalkObject(r: Reader, walker: Walker, d: string) returns (ok: bool)
    requires GoodTable(r) && walker.g == GraphOf(r) && walker.Valid() && d in r.table
    modifies walker
    ensures walker.Valid() && forall e :: e in old(walker.heights) ==> e in walker.heights
    ensures ok ==> d in walker.heights
    ensures !ok ==> forall h, roots :: !AcceptsAll(r, h, roots)
  {
    hide GoodObject, GoodTable, GraphOf, ValidMemo, Witness, Shape, Refs, Covers, Tall, Links, Below, RootOk, Look, NodeSize,
         Measurable, IsDigest, Wellformed;
    GoodDigest(r, d);
    var node := RefNode(d, walker.g.sizes[d]);
    ObjectRef(walker.g, walker.heights, d);
    var walked := walker.Walk(node, {}, {});
    ObjectRef(walker.g, walker.heights, d);
    if walked.None? {
      forall h, roots ensures !AcceptsAll(r, h, roots) {
        if AcceptsAll(r, h, roots) {
          ObjectRef(walker.g, h, d);
          HeightCapped(walker.g, h, d);
          AcceptedIsWitness(walker.g, h, node);
        }
      }
    }
    return walked.Some?;
  }

  lemma GoodDigest(r: Reader, d: string)
    requires GoodTable(r) && d in r.table
    ensures IsDigest(d) && d in GraphOf(r).sizes && Wellformed(GraphOf(r))
  {
    assert GoodObject(r, d);
  }

  lemma HeightCapped(g: Graph, h: Memos, d: string)
    requires ValidMemo(g, h) && d in h
    ensures h[d].height <= MAX_DEPTH
  {
    hide Tall, Links, Below, Refs, Shape;
  }

  lemma MemoKeys(g: Graph, h: Memos)
    requires ValidMemo(g, h)
    ensures h.Keys <= g.nodes.Keys
  {
    hide Tall, Links, Below, Refs, Shape;
  }

  /** What one stored text reaches, or nothing if it is not acceptable. */
  method References(r: Reader, walker: Walker, text: string) returns (reached: Option<set<string>>)
    requires GoodTable(r) && walker.g == GraphOf(r) && walker.Valid() && walker.heights.Keys == r.table.Keys
    modifies walker
    ensures walker.Valid() && walker.heights == old(walker.heights)
    ensures reached.Some? ==> RootOk(r, walker.g, walker.heights, text) && reached.value == BelowRoot(r, walker.heights, text)
    ensures reached.None? ==> forall h :: ValidMemo(walker.g, h) ==> !RootOk(r, walker.g, h, text)
  {
    hide GoodTable, GraphOf, ValueOf, ValidMemo, Below, Tall, Refs, Shape, Covers, Measurable, NodeSize, RootNode, Wellformed;
    if !(CONTENT_PREFIX <= text) {
      PlainReach(r, walker.heights, text);
      if ValueOf(r, text).None? {
        return None;
      }
      return Some({});
    }
    var root := ParseRoot(r, text);
    if root.None? {
      return None;
    }
    var measured := Measure(r.codec, root.value, 0);
    if measured.None? || measured.value > r.codec.maximum {
      return None;
    }
    MeasurableShape(r, root.value);
    reached := ReferencesOfNode(r, walker, root.value);
  }

  lemma PlainReach(r: Reader, h: Memos, text: string)
    ensures !(CONTENT_PREFIX <= text) ==> BelowRoot(r, h, text) == {}
  {
    hide Below;
  }

  method ParseRoot(r: Reader, text: string) returns (root: Option<Json>)
    requires CONTENT_PREFIX <= text
    ensures root == RootNode(r, text)
  {
    hide Parse;
    root := Parse(r, text[|CONTENT_PREFIX|..]);
  }

  method ReferencesOfNode(r: Reader, walker: Walker, node: Json) returns (reached: Option<set<string>>)
    requires GoodTable(r) && walker.g == GraphOf(r) && walker.Valid() && walker.heights.Keys == r.table.Keys
    requires Shape(node)
    modifies walker
    ensures walker.Valid() && walker.heights == old(walker.heights)
    ensures reached.Some? ==>
      && Covers(walker.g, walker.heights, Refs(node)) && Tall(walker.heights, node) <= MAX_DEPTH
      && reached.value == Below(walker.heights, node)
    ensures reached.None? ==> forall h :: ValidMemo(walker.g, h) ==>
      !(Covers(walker.g, h, Refs(node)) && Tall(h, node) <= MAX_DEPTH)
  {
    hide GoodTable, GraphOf, ValidMemo, Witness, Shape, Refs, Covers, Tall, Links, Below, Wellformed;
    var walked := walker.Walk(node, {}, {});
    assert walker.heights == old(walker.heights) by {
      MemoKeys(walker.g, walker.heights);
      GraphKeys(r);
    }
    if walked.None? {
      forall h | ValidMemo(walker.g, h) ensures !(Covers(walker.g, h, Refs(node)) && Tall(h, node) <= MAX_DEPTH) {
        if Covers(walker.g, h, Refs(node)) && Tall(h, node) <= MAX_DEPTH {
          AcceptedIsWitness(walker.g, h, node);
        }
      }
      return None;
    }
    assert {} + Below(walker.heights, node) == Below(walker.heights, node);
    return Some(walked.value.reachable);
  }

  lemma GraphKeys(r: Reader)
    requires GoodTable(r)
    ensures GraphOf(r).nodes.Keys == r.table.Keys
  {
    hide GoodObject;
  }

  /** Walk all content: the objects that the roots reach, or nothing if any object or root is
      not acceptable. */
  method Traverse(r: Reader, roots: set<string>) returns (reachable: Option<set<string>>)
    ensures reachable.Some? <==> ContentOk(r, roots)
    ensures reachable.Some? ==> reachable.value == Reachable(GraphOf(r), Starts(r, roots))
  {
    var graph := BuildGraph(r);
    if graph.None? {
      return None;
    }
    hide GoodTable, GraphOf, Wellformed, ValidMemo, RootOk, Reachable, Starts, BelowRoot;
    GraphShape(r);
    var walker := new Walker(graph.value);
    var ok := WalkObjects(r, walker);
    if !ok {
      return None;
    }
    reachable := CollectRoots(r, walker, roots);
    if reachable.Some? {
      RootsReach(r, walker.heights, roots);
    }
  }

  lemma GraphShape(r: Reader)
    requires GoodTable(r)
    ensures Wellformed(GraphOf(r))
  {
    hide *;
  }

  /** Everything that the roots reach through the memo of a finished walk. */
  method CollectRoots(r: Reader, walker: Walker, roots: set<string>) returns (reached: Option<set<string>>)
    requires GoodTable(r) && walker.g == GraphOf(r) && walker.Valid() && walker.heights.Keys == r.table.Keys
    modifies walker
    ensures walker.Valid() && walker.heights == old(walker.heights)
    ensures reached.Some? ==>
      && AcceptsAll(r, walker.heights, roots)
      && reached.value == set text, x | text in roots && x in BelowRoot(r, walker.heights, text) :: x
    ensures reached.None? ==> !ContentOk(r, roots)
  {
    hide GoodTable, RootOk, ValidMemo, BelowRoot, GraphOf, Wellformed;
    var found: set<string>, rest := {}, roots;
    while rest != {}
      invariant rest <= roots
      invariant walker.Valid() && walker.heights == old(walker.heights)
      invariant forall text :: text in roots && text !in rest ==> RootOk(r, walker.g, walker.heights, text)
      invariant found == set text, x | text in roots && text !in rest && x in BelowRoot(r, walker.heights, text) :: x
      decreases |rest|
    {
      var text :| text in rest;
      var more := References(r, walker, text);
      if more.None? {
        assert !ContentOk(r, roots);
        return None;
      }
      found := found + more.value;
      rest := rest - {text};
    }
    assert AcceptsAll(r, walker.heights, roots);
    return Some(found);
  }

  // ---------------------------------------------------------------- the store

  /** Delete rows one by one; every row must still be there. */
  method DeleteRows<K, V>(rows: map<K, V>, keys: set<K>) returns (after: map<K, V>, ok: bool, count: nat)
    ensures ok <==> keys <= rows.Keys
    ensures ok ==> after == rows - keys && count == |keys|
  {
    after, count := rows, 0;
    var done: set<K> := {};
    while done != keys
      invariant done <= keys && done <= rows.Keys
      invariant after == rows - done && count == |done|
      decreases |keys - done|
    {
      var k :| k in keys - done;
      if k !in after {
        assert k !in rows;
        return after, false, count;
      }
      assert keys - (done + {k}) == (keys - done) - {k};
      assert (rows - done) - {k} == rows - (done + {k});
      after := after - {k};
      done := done + {k};
      count := count + 1;
    }
    return after, true, count;
  }

  class OrchestratorStore {
    /** The text parser, the hash and the default limits; its table is not used. */
    const base: Reader
    /** The operation identity computed from a plan. */
    const identify: Plan -> string
    var t: Tables

    constructor (base: Reader, identify: Plan -> string, t: Tables)
      ensures this.base == base && this.identify == identify && this.t == t
    {
      this.base, this.identify, this.t := base, identify, t;
    }

    method BuildPlan(run: string, policy: Policy) returns (plan: Option<Plan>)
      ensures plan == PlanOf(base, t, run, policy)
    {
      if run in t.disposed || run !in t.current {
        return None;
      }
      var all := RevisionsOf(t.revisions, run);
      var protected := ProtectedRevisions(t, run, policy);
      var baselines := FindBaselines(t.history, run, protected);
      var history := set key | key in t.history && key.run == run && key !in baselines;
      assert history == HistoryCandidates(t.history, run, protected);
      var events := FindEventCandidates(t.events, t.cursors, run, policy);
      hide ContentOk, Roots, HistoryCandidates, EventCandidates, Protected, Starts, Reachable, GraphOf, RevisionsOf;
      if t.current[run] !in all || !(protected <= all) {
        return Some(BlockedPlan(t, run, policy));
      }
      var reachable := Traverse(ReaderOf(base, t), Roots(t, history, events));
      if reachable.None? {
        return Some(BlockedPlan(t, run, policy));
      }
      var enabled := policy.historyRevisions.Some? || policy.decisionEvents.Some?;
      var objects := if enabled then t.objects.Keys - reachable.value else {};
      return Some(Plan(run, policy, t.mutation, true, history, all - protected, events, objects));
    }

    /** Apply a plan under a lease that is checked four times. A plan that was applied before
        is answered from its receipt; otherwise it must equal the plan computed now, and all
        its deletions and its receipt are committed together or not at all. */
    method ApplyRetention(plan: Plan, leases: (bool, bool, bool, bool)) returns (r: Option<Result>)
      modifies this
      ensures r.Some? <==>
        && plan.applicable && leases.0
        && (if identify(plan) in old(t).operations
            then old(t).operations[identify(plan)].plan == plan
            else PlanOf(base, old(t), plan.run, plan.policy) == Some(plan)
                 && leases.1 && leases.2 && leases.3
                 && (plan.events != {} ==> plan.run in old(t).expiredThrough)
                 && Tagged(plan.run, plan.revisions) !! old(t).expired)
      ensures r.None? ==> t == old(t)
      ensures r.Some? && identify(plan) in old(t).operations ==>
        t == old(t) && r.value == old(t).operations[identify(plan)]
      ensures r.Some? && identify(plan) !in old(t).operations ==>
        t == Applied(old(t), plan, identify(plan)) && r.value == ResultOf(plan, identify(plan))
    {
      hide PlanOf, Applied, ResultOf, Raised, Writes, Tagged;
      if !plan.applicable || !leases.0 {
        return None;
      }
      var operation := identify(plan);
      if operation in t.operations {
        if t.operations[operation].plan != plan {
          return None;
        }
        return Some(t.operations[operation]);
      }
      var recomputed := BuildPlan(plan.run, plan.policy);
      if recomputed != Some(plan) || !leases.1 {
        return None;
      }
      PlanRowsExist(base, t, plan);
      var tagged := Tagged(plan.run, plan.revisions);
      var history, ok1, n1 := DeleteRows(t.history, plan.history);
      if !(tagged !! t.expired) {
        return None;
      }
      var events, ok2, n2 := DeleteRows(t.events, plan.events);
      if plan.events != {} && plan.run !in t.expiredThrough {
        return None;
      }
      var marks := Raised(t, plan);
      var objects, ok3, n3 := DeleteRows(t.objects, plan.objects);
      if !leases.2 {
        return None;
      }
      assert ok1 && ok2 && ok3;
      var last := if plan.events == {} then None else Some(Greatest(plan.events));
      var result := Result(operation, plan, n1, |plan.revisions|, n2, n3, last);
      if !leases.3 {
        return None;
      }
      var writes := n1 + 2 * |plan.revisions| + n2 + (if plan.events == {} then 0 else 1) + n3 + 1;
      CommitIs(t, plan, operation);
      t := t.(history := history, expired := t.expired + tagged, revisions := t.revisions - tagged, events := events,
              expiredThrough := marks, objects := objects,
              operations := t.operations[operation := result], mutation := t.mutation + writes);
      return Some(result);
    }
  }

  /** The rows that are left, the new watermark, the receipt and the clock, put together. */
  lemma CommitIs(t: Tables, plan: Plan, operation: string)
    ensures ResultOf(plan, operation) ==
      Result(operation, plan, |plan.history|, |plan.revisions|, |plan.events|, |plan.objects|,
             if plan.events == {} then None else Some(Greatest(plan.events)))
    ensures Applied(t, plan, operation) ==
      t.(history := t.history - plan.history,
         expired := t.expired + Tagged(plan.run, plan.revisions),
         revisions := t.revisions - Tagged(plan.run, plan.revisions),
         events := t.events - plan.events,
         expiredThrough := Raised(t, plan),
         objects := t.objects - plan.objects,
         operations := t.operations[operation := ResultOf(plan, operation)],
         mutation := t.mutation + (|plan.history| + 2 * |plan.revisions| + |plan.events|
           + (if plan.events == {} then 0 else 1) + |plan.objects| + 1))
  {
  }

  /** A plan names only rows that exist. */
  lemma PlanRowsExist(base: Reader, t: Tables, plan: Plan)
    requires PlanOf(base, t, plan.run, plan.policy) == Some(plan)
    ensures plan.history <= t.history.Keys && plan.events <= t.events.Keys && plan.objects <= t.objects.Keys
  {
    hide ContentOk, Roots, Protected, Starts, Reachable, Baselines, Recent, Unpassed, GraphOf;
  }
}
