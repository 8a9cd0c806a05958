/** The memoised walk of retention.py over stored content: which objects a node reaches,
    how deep it is, and how long its reference chains are. */
module ContentGraph {
  import opened StrictJson
  import opened TypedNode

  const MAX_DEPTH := 100

  /** What the walk remembers about an object: the depth of its value counting an empty
      container as one level, the length of its longest reference chain including itself,
      and every object below it. */
  datatype Memo = Memo(height: nat, links: nat, below: set<string>)

  type Memos = map<string, Memo>

  /** Parsed objects with the logical length of each row. */
  datatype Graph = Graph(nodes: map<string, Json>, sizes: map<string, nat>)

  ghost predicate Wellformed(g: Graph)
  {
    g.nodes.Keys == g.sizes.Keys && forall d :: d in g.nodes ==> Shape(g.nodes[d])
  }

  predicate IsContainer(node: Json) { Look(node).ListView? || Look(node).DictView? }

  /** The child nodes of a well-typed node, in order. */
  function Kids(node: Json): (kids: seq<Json>)
    requires Shape(node)
    ensures forall i :: 0 <= i < |kids| ==> Shape(kids[i]) && kids[i] < node
    ensures !IsContainer(node) ==> kids == []
  {
    match Look(node)
    case ListView(children) => children
    case DictView(pairs) => seq(|pairs|, i requires 0 <= i < |pairs| => PairChild(pairs[i]))
    case _ => []
  }

  // ---------------------------------------------------------------- direct references

  /** The references written in a node, each a digest with the length it claims. */
  function Refs(node: Json): set<(string, nat)>
    requires Shape(node)
    decreases node, |Kids(node)| + 1
  {
    match Look(node)
    case RefView(digest, size) => {(digest, size)}
    case _ => KidsRefs(node, |Kids(node)|)
  }

  function KidsRefs(node: Json, n: nat): set<(string, nat)>
    requires Shape(node) && n <= |Kids(node)|
    decreases node, n
  {
    if n == 0 then {} else KidsRefs(node, n - 1) + Refs(Kids(node)[n - 1])
  }

  function Targets(refs: set<(string, nat)>): set<string> { set r | r in refs :: r.0 }

  lemma {:induction false} KidsRefsCover(node: Json, n: nat)
    requires Shape(node) && n <= |Kids(node)|
    ensures forall i :: 0 <= i < n ==> Refs(Kids(node)[i]) <= KidsRefs(node, n)
  {
    hide Refs;
    if n > 0 {
      KidsRefsCover(node, n - 1);
    }
  }

  /** The references of a node are those of its kids, or the reference that it is. */
  lemma RefsByView(node: Json)
    requires Shape(node)
    ensures Look(node).RefView? ==> Refs(node) == {(Look(node).digest, Look(node).size)}
    ensures !Look(node).RefView? ==> Refs(node) == KidsRefs(node, |Kids(node)|)
  {
    hide Look, KidsRefs;
  }

  // ---------------------------------------------------------------- measures through a memo

  function HeightOf(h: Memos, d: string): nat { if d in h then h[d].height else 0 }
  function LinksOf(h: Memos, d: string): nat { if d in h then h[d].links else 0 }
  function BelowOf(h: Memos, d: string): set<string> { if d in h then h[d].below else {} }

  function Tall(h: Memos, node: Json): nat
    requires Shape(node)
    decreases node, |Kids(node)| + 1
  {
    match Look(node)
    case RefView(digest, _) => HeightOf(h, digest)
    case _ => if IsContainer(node) then 1 + KidsTall(h, node, |Kids(node)|) else 0
  }

  function KidsTall(h: Memos, node: Json, n: nat): nat
    requires Shape(node) && n <= |Kids(node)|
    decreases node, n
  {
    if n == 0 then 0 else Max(KidsTall(h, node, n - 1), Tall(h, Kids(node)[n - 1]))
  }

  function Links(h: Memos, node: Json): nat
    requires Shape(node)
    decreases node, |Kids(node)| + 1
  {
    match Look(node)
    case RefView(digest, _) => LinksOf(h, digest)
    case _ => KidsLinks(h, node, |Kids(node)|)
  }

  function KidsLinks(h: Memos, node: Json, n: nat): nat
    requires Shape(node) && n <= |Kids(node)|
    decreases node, n
  {
    if n == 0 then 0 else Max(KidsLinks(h, node, n - 1), Links(h, Kids(node)[n - 1]))
  }

  /** Every object that a node reaches. */
  function Below(h: Memos, node: Json): set<string>
    requires Shape(node)
    decreases node, |Kids(node)| + 1
  {
    match Look(node)
    case RefView(digest, _) => {digest} + BelowOf(h, digest)
    case _ => KidsBelow(h, node, |Kids(node)|)
  }

  function KidsBelow(h: Memos, node: Json, n: nat): set<string>
    requires Shape(node) && n <= |Kids(node)|
    decreases node, n
  {
    if n == 0 then {} else KidsBelow(h, node, n - 1) + Below(h, Kids(node)[n - 1])
  }

  // ---------------------------------------------------------------- valid memos

  /** Every reference leads to a remembered object of the claimed length. */
  ghost predicate Covers(g: Graph, h: Memos, refs: set<(string, nat)>)
  {
    forall r :: r in refs ==> r.0 in h && r.0 in g.sizes && g.sizes[r.0] == r.1
  }

  /** Each remembered fact follows from the facts about what the object refers to. Because
      links fall by one at each reference, no remembered object is on a cycle. */
  ghost predicate ValidMemo(g: Graph, h: Memos)
  {
    forall d :: d in h ==>
      && d in g.nodes && Shape(g.nodes[d])
      && Covers(g, h, Refs(g.nodes[d]))
      && h[d].height == Tall(h, g.nodes[d]) <= MAX_DEPTH
      && h[d].links == 1 + Links(h, g.nodes[d]) <= MAX_DEPTH
      && h[d].below == Below(h, g.nodes[d])
  }

  lemma {:induction false} LinksBound(h: Memos, node: Json)
    requires Shape(node)
    ensures forall r :: r in Refs(node) ==> LinksOf(h, r.0) <= Links(h, node)
    decreases node, |Kids(node)| + 1
  {
    hide Tall, Below;
    RefsByView(node);
    if !Look(node).RefView? {
      KidsLinksBound(h, node, |Kids(node)|);
      LinksByView(h, node);
    }
  }

  lemma LinksByView(h: Memos, node: Json)
    requires Shape(node)
    ensures !Look(node).RefView? ==> Links(h, node) == KidsLinks(h, node, |Kids(node)|)
    ensures !Look(node).RefView? ==> Below(h, node) == KidsBelow(h, node, |Kids(node)|)
    ensures IsContainer(node) ==> Tall(h, node) == 1 + KidsTall(h, node, |Kids(node)|)
    ensures !IsContainer(node) && !Look(node).RefView? ==> Tall(h, node) == 0
    ensures Look(node).RefView? ==>
      var d := Look(node).digest;
      && Links(h, node) == LinksOf(h, d) && Tall(h, node) == HeightOf(h, d)
      && Below(h, node) == {d} + BelowOf(h, d)
  {
    hide Look, KidsLinks, KidsBelow, KidsTall;
  }

  lemma {:induction false} KidsLinksBound(h: Memos, node: Json, n: nat)
    requires Shape(node) && n <= |Kids(node)|
    ensures forall r :: r in KidsRefs(node, n) ==> LinksOf(h, r.0) <= KidsLinks(h, node, n)
    decreases node, n
  {
    hide Links, Refs, Look;
    if n > 0 {
      KidsLinksBound(h, node, n - 1);
      LinksBound(h, Kids(node)[n - 1]);
    }
  }

  /** The measures of a node depend only on what is remembered of its direct references. */
  lemma {:induction false} MeasuresAgree(h: Memos, k: Memos, node: Json)
    requires Shape(node)
    requires forall r :: r in Refs(node) ==> r.0 in h && r.0 in k && h[r.0] == k[r.0]
    ensures Tall(h, node) == Tall(k, node) && Links(h, node) == Links(k, node)
    ensures Below(h, node) == Below(k, node)
    decreases node, |Kids(node)| + 1
  {
    RefsByView(node);
    LinksByView(h, node);
    LinksByView(k, node);
    hide Tall, Links, Below, Refs, Look;
    if !Look(node).RefView? {
      KidsAgree(h, k, node, |Kids(node)|);
    }
  }

  lemma {:induction false} KidsAgree(h: Memos, k: Memos, node: Json, n: nat)
    requires Shape(node) && n <= |Kids(node)|
    requires forall r :: r in KidsRefs(node, n) ==> r.0 in h && r.0 in k && h[r.0] == k[r.0]
    ensures KidsTall(h, node, n) == KidsTall(k, node, n) && KidsLinks(h, node, n) == KidsLinks(k, node, n)
    ensures KidsBelow(h, node, n) == KidsBelow(k, node, n)
    decreases node, n
  {
    hide Tall, Links, Below, Refs, Look;
    if n > 0 {
      KidsAgree(h, k, node, n - 1);
      MeasuresAgree(h, k, Kids(node)[n - 1]);
    }
  }

  /** Valid memos never disagree: what is remembered of an object is determined by the graph. */
  lemma {:induction false} MemoUnique(g: Graph, h: Memos, k: Memos, d: string)
    requires ValidMemo(g, h) && ValidMemo(g, k) && d in h && d in k
    ensures h[d] == k[d]
    decreases h[d].links
  {
    hide Tall, Links, Below, Refs, Shape;
    var node := g.nodes[d];
    LinksBound(h, node);
    forall r | r in Refs(node) ensures r.0 in h && r.0 in k && h[r.0] == k[r.0] {
      MemoUnique(g, h, k, r.0);
    }
    MeasuresAgree(h, k, node);
  }

  // ---------------------------------------------------------------- reachability

  /** A set of objects that contains whatever its members refer to. */
  ghost predicate Closed(g: Graph, s: set<string>)
  {
    forall d :: d in s && d in g.nodes && Shape(g.nodes[d]) ==> Targets(Refs(g.nodes[d])) <= s
  }

  /** `reached` is exactly what can be reached from `start`: the least closed set around it. */
  ghost predicate IsReach(g: Graph, start: set<string>, reached: set<string>)
  {
    && start <= reached && Closed(g, reached)
    && forall s: set<string> :: start <= s && Closed(g, s) ==> reached <= s
  }

  /** What a node reaches is its direct references and what each of them reaches. */
  lemma {:induction false} BelowIsUnion(h: Memos, node: Json, x: string)
    requires Shape(node)
    ensures x in Below(h, node) <==> exists r :: r in Refs(node) && (x == r.0 || x in BelowOf(h, r.0))
    decreases node, |Kids(node)| + 1
  {
    RefsByView(node);
    LinksByView(h, node);
    hide Tall, Links, Below, Refs;
    if Look(node).RefView? {
      var r := (Look(node).digest, Look(node).size);
      assert r in Refs(node);
    } else {
      hide Look;
      KidsBelowIsUnion(h, node, |Kids(node)|, x);
    }
  }

  lemma {:induction false} KidsBelowIsUnion(h: Memos, node: Json, n: nat, x: string)
    requires Shape(node) && n <= |Kids(node)|
    ensures x in KidsBelow(h, node, n) <==>
      exists r :: r in KidsRefs(node, n) && (x == r.0 || x in BelowOf(h, r.0))
    decreases node, n
  {
    hide Tall, Links, Below, Refs, Look, BelowOf;
    if n > 0 {
      KidsBelowIsUnion(h, node, n - 1, x);
      BelowIsUnion(h, Kids(node)[n - 1], x);
    }
  }

  /** Everything remembered below an object is remembered itself, and what that refers to
      is below the object too. */
  lemma {:induction false} BelowIsClosed(g: Graph, h: Memos, d: string)
    requires ValidMemo(g, h) && d in h
    ensures h[d].below <= h.Keys && Closed(g, h[d].below)
    decreases h[d].links
  {
    hide Tall, Links, Below, Refs, Shape;
    var node := g.nodes[d];
    LinksBound(h, node);
    forall x | x in h[d].below
      ensures x in h && Targets(Refs(g.nodes[x])) <= h[d].below
    {
      BelowIsUnion(h, node, x);
      var r :| r in Refs(node) && (x == r.0 || x in BelowOf(h, r.0));
      BelowIsClosed(g, h, r.0);
      forall y | y in Targets(Refs(g.nodes[x])) ensures y in h[d].below {
        if x == r.0 {
          var q :| q in Refs(g.nodes[x]) && q.0 == y;
          BelowIsUnion(h, g.nodes[x], y);
        }
        BelowIsUnion(h, node, y);
      }
    }
  }

  /** No closed set around an object leaves out anything below it. */
  lemma {:induction false} BelowIsLeast(g: Graph, h: Memos, d: string, s: set<string>)
    requires ValidMemo(g, h) && d in h && d in s && Closed(g, s)
    ensures h[d].below <= s
    decreases h[d].links
  {
    hide Tall, Links, Below, Refs, Shape;
    var node := g.nodes[d];
    LinksBound(h, node);
    forall x | x in h[d].below ensures x in s {
      BelowIsUnion(h, node, x);
      var r :| r in Refs(node) && (x == r.0 || x in BelowOf(h, r.0));
      assert r.0 in Targets(Refs(node));
      BelowIsLeast(g, h, r.0, s);
    }
  }

  /** The memoised walk collects exactly what is reachable. */
  lemma BelowIsReach(g: Graph, h: Memos, node: Json)
    requires ValidMemo(g, h) && Shape(node) && Covers(g, h, Refs(node))
    ensures IsReach(g, Targets(Refs(node)), Below(h, node)) && Below(h, node) <= h.Keys
  {
    hide Tall, Links, Below, Refs, Shape;
    var reached := Below(h, node);
    forall x | x in Targets(Refs(node)) ensures x in reached {
      var r :| r in Refs(node) && r.0 == x;
      BelowIsUnion(h, node, x);
    }
    forall x | x in reached
      ensures x in h && Targets(Refs(g.nodes[x])) <= reached
    {
      BelowIsUnion(h, node, x);
      var r :| r in Refs(node) && (x == r.0 || x in BelowOf(h, r.0));
      BelowIsClosed(g, h, r.0);
      forall y | y in Targets(Refs(g.nodes[x])) ensures y in reached {
        if x == r.0 {
          var q :| q in Refs(g.nodes[x]) && q.0 == y;
          BelowIsUnion(h, g.nodes[x], y);
        }
        BelowIsUnion(h, node, y);
      }
    }
    forall s: set<string> | Targets(Refs(node)) <= s && Closed(g, s) ensures reached <= s {
      forall x | x in reached ensures x in s {
        BelowIsUnion(h, node, x);
        var r :| r in Refs(node) && (x == r.0 || x in BelowOf(h, r.0));
        assert r.0 in Targets(Refs(node));
        BelowIsLeast(g, h, r.0, s);
      }
    }
  }
}
