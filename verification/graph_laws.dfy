/** What acceptance by the graph walk says about decoding, and why deleting objects that
    nothing retained reaches leaves every retained value as it was. */
module GraphLaws {
  import opened StrictJson
  import opened TypedNode
  import opened ContentDecoding
  import opened ContentGraph

  /** Every check that building the graph makes of one stored object. */
  predicate GoodObject(r: Reader, digest: string)
  {
    && digest in r.table
    && var row := r.table[digest];
    && 0 <= row.size <= r.codec.maximum
    && Parse(r, row.encoded).Some?
    && r.codec.digest(row.encoded) == digest
    && Measurable(Parse(r, row.encoded).value, 0, r.codec.maxDepth, r.codec.maximum)
    && NodeSize(Parse(r, row.encoded).value) == row.size
  }

  predicate GoodTable(r: Reader) { forall d :: d in r.table ==> GoodObject(r, d) }

  function GraphOf(r: Reader): (g: Graph)
    requires GoodTable(r)
    ensures Wellformed(g)
  {
    Graph(map d | d in r.table :: Parse(r, r.table[d].encoded).value, map d | d in r.table :: r.table[d].size as nat)
  }

  // ---------------------------------------------------------------- acceptance implies decoding

  lemma {:induction false} HeightBelowTall(h: Memos, node: Json)
    requires Shape(node)
    ensures Height(node) <= Tall(h, node)
    decreases node
  {
    LinksByView(h, node);
    match Look(node)
    case ListView(children) =>
      hide Tall;
      forall i | 0 <= i < |children| ensures 1 + Height(children[i]) <= Tall(h, node) {
        assert Kids(node)[i] == children[i];
        HeightBelowTall(h, children[i]);
        KidTall(h, node, |Kids(node)|, i);
      }
      ChildrenHeightAtMost(children, 0, Tall(h, node));
    case DictView(pairs) =>
      hide Tall;
      forall i | 0 <= i < |pairs| ensures PairHeight(pairs[i]) <= Tall(h, node) {
        assert Kids(node)[i] == PairChild(pairs[i]);
        HeightBelowTall(h, PairChild(pairs[i]));
        KidTall(h, node, |Kids(node)|, i);
      }
      PairsHeightAtMost(pairs, 0, Tall(h, node));
    case _ =>
  }

  lemma {:induction false} KidTall(h: Memos, node: Json, n: nat, i: nat)
    requires Shape(node) && i < n <= |Kids(node)|
    ensures Tall(h, Kids(node)[i]) <= KidsTall(h, node, n)
    ensures Links(h, Kids(node)[i]) <= KidsLinks(h, node, n)
    ensures Refs(Kids(node)[i]) <= KidsRefs(node, n)
    decreases n
  {
    hide Tall, Links, Refs, Kids, Shape;
    if i < n - 1 {
      KidTall(h, node, n - 1, i);
    }
  }

  /** A node that the walk accepts, below an open chain that it has room for. */
  ghost predicate Accepted(g: Graph, h: Memos, node: Json, depth: nat, active: set<string>, limit: nat)
  {
    && ValidMemo(g, h) && Shape(node) && Covers(g, h, Refs(node))
    && depth + Tall(h, node) <= limit && |active| + Links(h, node) <= limit
    && forall a :: a in active ==> a in h && h[a].links > Links(h, node)
  }

  lemma AcceptedKid(g: Graph, h: Memos, node: Json, depth: nat, active: set<string>, limit: nat, i: nat)
    requires Accepted(g, h, node, depth, active, limit) && IsContainer(node) && i < |Kids(node)|
    ensures Accepted(g, h, Kids(node)[i], depth + 1, active, limit)
  {
    RefsByView(node);
    LinksByView(h, node);
    KidTall(h, node, |Kids(node)|, i);
    hide Tall, Links, Refs, ValidMemo, Shape, Look;
  }

  /** Whatever the walk accepts passes every depth, chain, cycle and length check of the
      decoder. (The converse fails: the walk counts an empty container as one level.) */
  lemma {:induction false} AcceptedDecodes(r: Reader, h: Memos, node: Json, depth: nat, active: set<string>)
    requires GoodTable(r) && Accepted(GraphOf(r), h, node, depth, active, r.codec.maxDepth)
    requires NodeSize(node) <= r.codec.maximum
    ensures Decode(r, node, depth, active).Some?
    decreases Room(r, active), node, 1
  {
    AcceptedMeasures(r, h, node, depth, active);
    if Look(node).RefView? {
      AcceptedRef(r, h, node, depth, active);
      var digest, size := Look(node).digest, Look(node).size;
      DecodeReference(r, node, digest, size, depth, active);
      hide Accepted, Decode, GraphOf, GoodTable, Fetch, Look, NodeSize;
      AcceptedDecodes(r, h, Fetch(r, digest, size, depth).value, depth, active + {digest});
    } else if IsContainer(node) {
      hide Accepted, Decode, GraphOf, GoodTable, DecodeItems, DecodePairs;
      DecodeContainer(r, node, depth, active);
      MeasurableParts(node, depth, r.codec.maxDepth, r.codec.maximum);
      KidsDecode(r, h, node, depth, active, 0);
    }
  }

  lemma AcceptedMeasures(r: Reader, h: Memos, node: Json, depth: nat, active: set<string>)
    requires GoodTable(r) && Accepted(GraphOf(r), h, node, depth, active, r.codec.maxDepth)
    requires NodeSize(node) <= r.codec.maximum
    ensures Measurable(node, depth, r.codec.maxDepth, r.codec.maximum)
  {
    hide Tall, Links, Refs, ValidMemo, Shape, Look, GoodObject;
    HeightBelowTall(h, node);
  }

  lemma AcceptedRef(r: Reader, h: Memos, node: Json, depth: nat, active: set<string>)
    requires GoodTable(r) && Accepted(GraphOf(r), h, node, depth, active, r.codec.maxDepth)
    requires Look(node).RefView? && NodeSize(node) <= r.codec.maximum
    ensures var digest, size := Look(node).digest, Look(node).size;
            && Follows(r, digest, size, active)
            && Room(r, active + {digest}) < Room(r, active)
            && Fetch(r, digest, size, depth).Some?
            && Accepted(GraphOf(r), h, Fetch(r, digest, size, depth).value, depth, active + {digest}, r.codec.maxDepth)
            && NodeSize(Fetch(r, digest, size, depth).value) <= r.codec.maximum
  {
    hide Accepted, Look, Measurable, Shape, NodeSize, Fetch, ValidMemo, GoodTable, Covers, Room, Tall, GraphOf;
    var g, digest, size := GraphOf(r), Look(node).digest, Look(node).size;
    AcceptedTarget(g, h, node, depth, active, r.codec.maxDepth);
    GraphRows(r, digest);
    var body := g.nodes[digest];
    HeightBelowTall(h, body);
    GoodFetch(r, digest, depth);
    assert NodeSize(node) == size by { ReferenceMeasures(node, digest, size); }
    FollowedHasLessRoom(r, digest, size, active);
  }

  lemma GraphRows(r: Reader, digest: string)
    requires GoodTable(r) && digest in GraphOf(r).nodes
    ensures digest in r.table && Shape(GraphOf(r).nodes[digest])
    ensures digest in GraphOf(r).sizes && GraphOf(r).sizes[digest] == r.table[digest].size
  {
    hide Shape, GoodObject;
  }

  lemma AcceptedTarget(g: Graph, h: Memos, node: Json, depth: nat, active: set<string>, limit: nat)
    requires Accepted(g, h, node, depth, active, limit) && Look(node).RefView?
    ensures var d := Look(node).digest;
            && d in g.nodes && d in g.sizes && g.sizes[d] == Look(node).size
            && d !in active && |active| < limit && depth + Tall(h, g.nodes[d]) <= limit
            && Accepted(g, h, g.nodes[d], depth, active + {d}, limit)
  {
    RefsByView(node);
    LinksByView(h, node);
    assert (Look(node).digest, Look(node).size) in Refs(node);
    hide Tall, Links, Refs, Look, Shape;
  }

  lemma GoodFetch(r: Reader, digest: string, depth: nat)
    requires GoodTable(r) && digest in r.table
    ensures var body := GraphOf(r).nodes[digest];
            && Shape(body) && NodeSize(body) == r.table[digest].size
            && (depth + Height(body) <= r.codec.maxDepth ==>
                  Fetch(r, digest, r.table[digest].size, depth) == Some(body))
  {
    assert GoodObject(r, digest);
    hide Shape, NodeSize, Height, Strict, Canonical;
  }

  lemma {:induction false} KidsDecode(
    r: Reader, h: Memos, node: Json, depth: nat, active: set<string>, k: nat)
    requires GoodTable(r) && Accepted(GraphOf(r), h, node, depth, active, r.codec.maxDepth)
    requires Shape(node) && IsContainer(node) && k <= |Kids(node)|
    requires forall i :: 0 <= i < |Kids(node)| ==> NodeSize(Kids(node)[i]) <= r.codec.maximum
    ensures Look(node).ListView? ==> DecodeItems(r, Look(node).children, k, depth + 1, active).Some?
    ensures Look(node).DictView? ==> DecodePairs(r, Look(node).pairs, k, depth + 1, active).Some?
    decreases Room(r, active), node, 0, |Kids(node)| - k
  {
    hide Accepted, Decode, GraphOf, GoodTable, NodeSize, DecodeItems, DecodePairs;
    if k == |Kids(node)| {
      DecodeNoKid(r, node, depth, active);
    } else {
      assert Decode(r, Kids(node)[k], depth + 1, active).Some? by {
        hide Accepted, Decode, GraphOf, GoodTable, NodeSize, Look;
        AcceptedKid(GraphOf(r), h, node, depth, active, r.codec.maxDepth, k);
        AcceptedDecodes(r, h, Kids(node)[k], depth + 1, active);
      }
      KidsDecode(r, h, node, depth, active, k + 1);
      DecodeFirstKid(r, node, depth, active, k);
    }
  }

  lemma DecodeNoKid(r: Reader, node: Json, depth: nat, active: set<string>)
    requires Shape(node) && IsContainer(node)
    ensures Look(node).ListView? ==> DecodeItems(r, Look(node).children, |Kids(node)|, depth + 1, active).Some?
    ensures Look(node).DictView? ==> DecodePairs(r, Look(node).pairs, |Kids(node)|, depth + 1, active).Some?
  {
    hide Look, Decode;
  }

  lemma DecodeFirstKid(r: Reader, node: Json, depth: nat, active: set<string>, k: nat)
    requires Shape(node) && IsContainer(node) && k < |Kids(node)|
    requires Decode(r, Kids(node)[k], depth + 1, active).Some?
    requires Look(node).ListView? ==> DecodeItems(r, Look(node).children, k + 1, depth + 1, active).Some?
    requires Look(node).DictView? ==> DecodePairs(r, Look(node).pairs, k + 1, depth + 1, active).Some?
    ensures Look(node).ListView? ==> DecodeItems(r, Look(node).children, k, depth + 1, active).Some?
    ensures Look(node).DictView? ==> DecodePairs(r, Look(node).pairs, k, depth + 1, active).Some?
  {
    hide Decode, NodeSize;
  }

  // ---------------------------------------------------------------- frame

  /** A set of digests that contains whatever the bodies of its members refer to. */
  ghost predicate Confines(r: Reader, s: set<string>)
  {
    forall d :: d in s && d in r.table ==>
      var body := Parse(r, r.table[d].encoded);
      body.Some? && Shape(body.value) ==> Targets(Refs(body.value)) <= s
  }

  ghost predicate Agrees(r: Reader, q: Reader, s: set<string>)
  {
    && r.loads == q.loads && r.codec == q.codec
    && forall d :: d in s ==> (d in r.table <==> d in q.table) && (d in r.table ==> r.table[d] == q.table[d])
  }

  /** Decoding looks only at the objects that the node reaches. */
  lemma {:induction false} DecodeFrame(
    r: Reader, q: Reader, s: set<string>, node: Json, depth: nat, active: set<string>)
    requires r.loads == q.loads && r.codec == q.codec && Agrees(r, q, s) && Confines(r, s)
    requires Shape(node) ==> Targets(Refs(node)) <= s
    ensures Decode(r, node, depth, active) == Decode(q, node, depth, active)
    decreases Room(r, active), node, 1
  {
    if !Measurable(node, depth, r.codec.maxDepth, r.codec.maximum) || NodeSize(node) > r.codec.maximum {
      Unmeasurable(r, node, depth, active);
      Unmeasurable(q, node, depth, active);
    } else if Look(node).RefView? {
      var digest, size := Look(node).digest, Look(node).size;
      RefsByView(node);
      assert digest in Targets(Refs(node)) by { assert (digest, size) in Refs(node); }
      FetchFrame(r, q, s, digest, size, depth);
      ReferenceMeaning(r, node, digest, size, depth, active);
      ReferenceMeaning(q, node, digest, size, depth, active);
      if Follows(r, digest, size, active) && Fetch(r, digest, size, depth).Some? {
        hide Decode, Fetch, Confines, Agrees, Look, NodeSize, Measurable, Refs, Shape;
        DecodeFrame(r, q, s, Fetch(r, digest, size, depth).value, depth, active + {digest});
      }
    } else if IsContainer(node) {
      DecodeContainer(r, node, depth, active);
      DecodeContainer(q, node, depth, active);
      hide Decode, DecodeItems, DecodePairs, Confines, Agrees, NodeSize;
      KidsFrame(r, q, s, node, depth, active, 0);
    } else {
      hide Fetch, Confines, Agrees, NodeSize, Measurable, Refs;
    }
  }

  lemma Unmeasurable(r: Reader, node: Json, depth: nat, active: set<string>)
    requires !Measurable(node, depth, r.codec.maxDepth, r.codec.maximum) || NodeSize(node) > r.codec.maximum
    ensures Decode(r, node, depth, active).None?
  {
    hide Measurable, NodeSize;
  }

  lemma ReferenceMeaning(r: Reader, node: Json, digest: string, size: nat, depth: nat, active: set<string>)
    requires Look(node) == RefView(digest, size)
    requires Measurable(node, depth, r.codec.maxDepth, r.codec.maximum)
    ensures !Follows(r, digest, size, active) || Fetch(r, digest, size, depth).None? ==>
      Decode(r, node, depth, active).None?
    ensures Follows(r, digest, size, active) && Fetch(r, digest, size, depth).Some? ==>
      && Room(r, active + {digest}) < Room(r, active)
      && Decode(r, node, depth, active)
         == Decode(r, Fetch(r, digest, size, depth).value, depth, active + {digest})
  {
    ReferenceMeasures(node, digest, size);
    if Follows(r, digest, size, active) && Fetch(r, digest, size, depth).Some? {
      DecodeReference(r, node, digest, size, depth, active);
    } else {
      hide Look, Measurable, NodeSize, Fetch;
    }
  }

  lemma FetchFrame(r: Reader, q: Reader, s: set<string>, digest: string, size: nat, depth: nat)
    requires r.loads == q.loads && r.codec == q.codec && Agrees(r, q, s) && Confines(r, s) && digest in s
    ensures Fetch(r, digest, size, depth) == Fetch(q, digest, size, depth)
    ensures Fetch(r, digest, size, depth).Some? ==>
      var body := Fetch(r, digest, size, depth).value;
      Shape(body) ==> Targets(Refs(body)) <= s
  {
    hide Shape, NodeSize, Height, Strict, Canonical, Refs, Utf8Size;
  }

  lemma KidsInFrame(node: Json, s: set<string>, i: nat)
    requires Shape(node) && IsContainer(node) && Targets(Refs(node)) <= s && i < |Kids(node)|
    ensures Targets(Refs(Kids(node)[i])) <= s
  {
    RefsByView(node);
    KidsRefsCover(node, |Kids(node)|);
    hide Refs, KidsRefs, Shape, Look;
    forall x | x in Targets(Refs(Kids(node)[i])) ensures x in s {
      var p :| p in Refs(Kids(node)[i]) && p.0 == x;
      assert p in Refs(node);
      assert x in Targets(Refs(node));
    }
  }

  lemma {:induction false} KidsFrame(
    r: Reader, q: Reader, s: set<string>, node: Json, depth: nat, active: set<string>, k: nat)
    requires r.loads == q.loads && r.codec == q.codec && Agrees(r, q, s) && Confines(r, s)
    requires Shape(node) && IsContainer(node) && Targets(Refs(node)) <= s && k <= |Kids(node)|
    ensures Look(node).ListView? ==>
      DecodeItems(r, Look(node).children, k, depth + 1, active)
      == DecodeItems(q, Look(node).children, k, depth + 1, active)
    ensures Look(node).DictView? ==>
      DecodePairs(r, Look(node).pairs, k, depth + 1, active)
      == DecodePairs(q, Look(node).pairs, k, depth + 1, active)
    decreases Room(r, active), node, 0, |Kids(node)| - k
  {
    hide Decode, Confines, Agrees, NodeSize, Refs, Shape, Look;
    if k < |Kids(node)| {
      KidsInFrame(node, s, k);
      hide Targets;
      DecodeFrame(r, q, s, Kids(node)[k], depth + 1, active);
      KidsFrame(r, q, s, node, depth, active, k + 1);
    }
  }
}
