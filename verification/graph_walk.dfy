/** The walk object of retention.py: a recursive traversal that remembers each object it has
    finished, and so visits every stored object once however often it is shared. */
module GraphWalk {
  import opened StrictJson
  import opened TypedNode
  import opened ContentGraph

  /** A way to accept a node under an open chain of references: a valid memo that covers it
      within the depth bounds and with every open object above it. */
  ghost predicate Witness(g: Graph, c: Memos, node: Json, active: set<string>)
    requires Shape(node)
  {
    && ValidMemo(g, c) && Covers(g, c, Refs(node))
    && Tall(c, node) <= MAX_DEPTH
    && |active| + Links(c, node) <= MAX_DEPTH
    && forall a :: a in active ==> a in c && c[a].links > Links(c, node)
  }

  lemma {:induction false} KidsMeasuresCover(h: Memos, node: Json, n: nat)
    requires Shape(node) && n <= |Kids(node)|
    ensures forall i :: 0 <= i < n ==>
      && Tall(h, Kids(node)[i]) <= KidsTall(h, node, n)
      && Links(h, Kids(node)[i]) <= KidsLinks(h, node, n)
  {
    hide Tall, Links, Kids, Shape;
    if n > 0 {
      KidsMeasuresCover(h, node, n - 1);
    }
  }

  /** What accepts a container accepts each of its children. */
  lemma WitnessOfKid(g: Graph, c: Memos, node: Json, active: set<string>, i: nat)
    requires Shape(node) && IsContainer(node) && i < |Kids(node)| && Witness(g, c, node, active)
    ensures Witness(g, c, Kids(node)[i], active)
  {
    hide *;
    KidOfWalk(c, node, i);
    WitnessShrinks(g, c, node, Kids(node)[i], active);
  }

  lemma KidOfWalk(c: Memos, node: Json, i: nat)
    requires Shape(node) && IsContainer(node) && i < |Kids(node)|
    ensures Shape(Kids(node)[i]) && Refs(Kids(node)[i]) <= Refs(node)
    ensures Tall(c, Kids(node)[i]) <= Tall(c, node) && Links(c, Kids(node)[i]) <= Links(c, node)
  {
    RefsByView(node);
    LinksByView(c, node);
    KidsRefsCover(node, |Kids(node)|);
    KidsMeasuresCover(c, node, |Kids(node)|);
    hide Tall, Links, Refs, Shape, Look;
  }

  lemma WitnessShrinks(g: Graph, c: Memos, node: Json, kid: Json, active: set<string>)
    requires Shape(node) && Shape(kid) && Refs(kid) <= Refs(node)
    requires Tall(c, kid) <= Tall(c, node) && Links(c, kid) <= Links(c, node) && Witness(g, c, node, active)
    ensures Witness(g, c, kid, active)
  {
    hide Tall, Links, Below, Refs, ValidMemo, Shape;
  }

  /** What accepts a reference accepts the object behind it, with the object added to the chain. */
  lemma WitnessOfTarget(g: Graph, c: Memos, node: Json, active: set<string>)
    requires Shape(node) && Look(node).RefView? && Witness(g, c, node, active)
    ensures var d := Look(node).digest;
            && d in g.nodes && d in g.sizes && g.sizes[d] == Look(node).size && Shape(g.nodes[d])
            && d !in active && |active| < MAX_DEPTH && c[d].links <= MAX_DEPTH
            && Witness(g, c, g.nodes[d], active + {d})
  {
    RefsByView(node);
    LinksByView(c, node);
    assert (Look(node).digest, Look(node).size) in Refs(node);
    hide Tall, Links, Below, Refs, Shape, Look;
    TargetWitness(g, c, Look(node).digest, active);
  }

  /** The memo accepts the object itself one reference further down. */
  lemma TargetWitness(g: Graph, c: Memos, d: string, active: set<string>)
    requires ValidMemo(g, c) && d in c && d in g.nodes && Shape(g.nodes[d]) && d !in active
    requires |active| + c[d].links <= MAX_DEPTH && c[d].links >= 1
    requires forall a :: a in active ==> a in c && c[a].links > c[d].links
    ensures Witness(g, c, g.nodes[d], active + {d})
  {
    hide Tall, Links, Below, Refs, Shape;
  }

  /** A memo and a witness give the same measures to a node that both cover. */
  lemma WitnessAgrees(g: Graph, h: Memos, c: Memos, node: Json)
    requires ValidMemo(g, h) && ValidMemo(g, c) && Shape(node)
    requires Covers(g, h, Refs(node)) && Covers(g, c, Refs(node))
    ensures Tall(h, node) == Tall(c, node) && Links(h, node) == Links(c, node)
  {
    hide Tall, Links, Below, Refs, ValidMemo, Shape;
    forall r | r in Refs(node) ensures h[r.0] == c[r.0] {
      MemoUnique(g, h, c, r.0);
    }
    MeasuresAgree(h, c, node);
  }

  datatype Walked = Walked(height: nat, links: nat, reachable: set<string>)

  /** `after` extends `before` without touching open objects. */
  ghost predicate Grown(before: Memos, after: Memos, active: set<string>)
  {
    && (forall d :: d in before ==> d in after && after[d] == before[d])
    && (forall d :: d in active && d in after ==> d in before)
  }

  /** The walk of a node answered correctly. */
  ghost predicate Answer(
    g: Graph, h: Memos, node: Json, reachable: set<string>, active: set<string>, r: Option<Walked>)
    requires Shape(node)
  {
    && (r.Some? ==>
          && Covers(g, h, Refs(node))
          && r.value == Walked(Tall(h, node), Links(h, node), reachable + Below(h, node))
          && r.value.height <= MAX_DEPTH)
    && (r.None? ==> forall c :: !Witness(g, c, node, active))
  }

  /** Remembering a finished object keeps the memo valid. */
  lemma Remember(g: Graph, h: Memos, d: string)
    requires ValidMemo(g, h) && d !in h && d in g.nodes && Shape(g.nodes[d])
    requires Covers(g, h, Refs(g.nodes[d]))
    requires Tall(h, g.nodes[d]) <= MAX_DEPTH && Links(h, g.nodes[d]) < MAX_DEPTH
    ensures ValidMemo(g, h[d := Memo(Tall(h, g.nodes[d]), 1 + Links(h, g.nodes[d]), Below(h, g.nodes[d]))])
  {
    hide Tall, Links, Below, Refs, Shape;
    var h' := h[d := Memo(Tall(h, g.nodes[d]), 1 + Links(h, g.nodes[d]), Below(h, g.nodes[d]))];
    forall e | e in h'
      ensures Covers(g, h', Refs(g.nodes[e]))
      ensures Tall(h', g.nodes[e]) == Tall(h, g.nodes[e]) && Links(h', g.nodes[e]) == Links(h, g.nodes[e])
      ensures Below(h', g.nodes[e]) == Below(h, g.nodes[e])
    {
      assert Covers(g, h, Refs(g.nodes[e]));
      MeasuresAgree(h, h', g.nodes[e]);
    }
  }

  /** Covered kids keep their measures when the memo grows. */
  lemma {:induction false} KidsStillCover(g: Graph, h: Memos, k: Memos, node: Json, n: nat)
    requires Shape(node) && n <= |Kids(node)| && Covers(g, h, KidsRefs(node, n))
    requires forall d :: d in h ==> d in k && k[d] == h[d]
    ensures Covers(g, k, KidsRefs(node, n))
    ensures KidsTall(k, node, n) == KidsTall(h, node, n) && KidsLinks(k, node, n) == KidsLinks(h, node, n)
    ensures KidsBelow(k, node, n) == KidsBelow(h, node, n)
  {
    hide Tall, Links, Below, Refs, Shape, Look;
    KidsAgree(h, k, node, n);
  }

  class Walker {
    const g: Graph
    var heights: Memos

    constructor (g: Graph)
      requires Wellformed(g)
      ensures this.g == g && heights == map[] && Valid()
    {
      this.g := g;
      heights := map[];
    }

    ghost predicate Valid()
      reads this
    {
      Wellformed(g) && ValidMemo(g, heights)
    }

    /** Walk a node below an open chain of references, adding what it reaches to `reachable`.
        It fails exactly when nothing can accept the node: a reference is missing or claims a
        wrong length, references form a cycle, or a depth bound is exceeded. */
    method Walk(node: Json, reachable: set<string>, active: set<string>) returns (r: Option<Walked>)
      requires Valid() && Shape(node) && |active| <= MAX_DEPTH
      modifies this
      ensures Valid() && Grown(old(heights), heights, active)
      ensures Answer(g, heights, node, reachable, active, r)
      decreases MAX_DEPTH - |active|, node, 1
    {
      hide Shape, ValidMemo, Covers, Witness, Tall, Links, Below, Refs, Kids;
      LinksByView(heights, node);
      RefsByView(node);
      if Look(node).RefView? {
        r := WalkRef(node, reachable, active);
      } else if IsContainer(node) {
        r := WalkKids(node, reachable, active);
      } else {
        assert Kids(node) == [];
        NothingBelow(g, heights, node);
        r := Some(Walked(0, 0, reachable));
      }
    }

    method WalkKids(node: Json, reachable: set<string>, active: set<string>) returns (r: Option<Walked>)
      requires Valid() && Shape(node) && IsContainer(node) && |active| <= MAX_DEPTH
      modifies this
      ensures Valid() && Grown(old(heights), heights, active)
      ensures Answer(g, heights, node, reachable, active, r)
      decreases MAX_DEPTH - |active|, node, 0
    {
      hide Shape, ValidMemo, Witness, Tall, Links, Below, Refs, Look, KidsRefs, KidsBelow, KidsTall, KidsLinks,
           Wellformed, Covers;
      RefsByView(node);
      var kids := Kids(node);
      var height, links, reached, index := 0, 0, reachable, 0;
      KidsStart(g, heights, node);
      while index < |kids|
        invariant 0 <= index <= |kids|
        invariant Valid() && Grown(old(heights), heights, active)
        invariant Covers(g, heights, KidsRefs(node, index))
        invariant height == KidsTall(heights, node, index) && links == KidsLinks(heights, node, index)
        invariant reached == reachable + KidsBelow(heights, node, index)
      {
        ghost var before := heights;
        var kid := Walk(kids[index], reached, active);
        if kid.None? {
          forall c ensures !Witness(g, c, node, active) {
            if Witness(g, c, node, active) {
              WitnessOfKid(g, c, node, active, index);
            }
          }
          return None;
        }
        KidsStep(g, before, heights, node, index);
        height := Max(height, kid.value.height);
        links := Max(links, kid.value.links);
        reached := kid.value.reachable;
        index := index + 1;
      }
      LinksByView(heights, node);
      if 1 + height > MAX_DEPTH {
        forall c ensures !Witness(g, c, node, active) {
          if Witness(g, c, node, active) {
            TooTall(g, heights, c, node, active);
          }
        }
        return None;
      }
      return Some(Walked(1 + height, links, reached));
    }

    method WalkRef(node: Json, reachable: set<string>, active: set<string>) returns (r: Option<Walked>)
      requires Valid() && Shape(node) && Look(node).RefView? && |active| <= MAX_DEPTH
      modifies this
      ensures Valid() && Grown(old(heights), heights, active)
      ensures Answer(g, heights, node, reachable, active, r)
      decreases MAX_DEPTH - |active|, node, 0
    {
      hide Shape, ValidMemo, Witness, Tall, Links, Below, Refs, Covers, BelowOf, HeightOf, LinksOf;
      var digest, expected := Look(node).digest, Look(node).size;
      hide Look;
      forall c | Witness(g, c, node, active)
        ensures digest !in active && |active| < MAX_DEPTH && digest in g.nodes && g.sizes[digest] == expected
        ensures Shape(g.nodes[digest]) && Witness(g, c, g.nodes[digest], active + {digest})
      {
        WitnessOfTarget(g, c, node, active);
      }
      if digest in active || |active| >= MAX_DEPTH {
        return None;
      }
      if digest !in g.nodes || g.sizes[digest] != expected {
        return None;
      }
      if digest !in heights {
        assert |active + {digest}| == |active| + 1;
        var body := Walk(g.nodes[digest], {}, active + {digest});
        if body.None? {
          return None;
        }
        if body.value.links + 1 > MAX_DEPTH {
          forall c ensures !Witness(g, c, node, active) {
            if Witness(g, c, node, active) {
              TooLinked(g, heights, c, node, active);
            }
          }
          return None;
        }
        Remember(g, heights, digest);
        assert {} + Below(heights, g.nodes[digest]) == Below(heights, g.nodes[digest]);
        heights := heights[digest := Memo(body.value.height, body.value.links + 1, body.value.reachable)];
      }
      RememberedRef(g, heights, node);
      var memo := heights[digest];
      r := Some(Walked(memo.height, memo.links, reachable + {digest} + memo.below));
    }
  }

  lemma NothingBelow(g: Graph, h: Memos, node: Json)
    requires Shape(node) && !IsContainer(node) && !Look(node).RefView?
    ensures Covers(g, h, Refs(node)) && Tall(h, node) == 0 && Links(h, node) == 0 && Below(h, node) == {}
  {
    RefsByView(node);
    LinksByView(h, node);
    assert Kids(node) == [];
  }

  lemma KidsStart(g: Graph, h: Memos, node: Json)
    requires Shape(node)
    ensures Covers(g, h, KidsRefs(node, 0)) && KidsTall(h, node, 0) == 0 && KidsLinks(h, node, 0) == 0
    ensures KidsBelow(h, node, 0) == {}
  {
  }

  lemma KidsStep(g: Graph, before: Memos, after: Memos, node: Json, k: nat)
    requires Shape(node) && k < |Kids(node)| && Covers(g, before, KidsRefs(node, k))
    requires forall d :: d in before ==> d in after && after[d] == before[d]
    requires Covers(g, after, Refs(Kids(node)[k]))
    ensures Covers(g, after, KidsRefs(node, k + 1))
    ensures KidsTall(after, node, k + 1) == Max(KidsTall(before, node, k), Tall(after, Kids(node)[k]))
    ensures KidsLinks(after, node, k + 1) == Max(KidsLinks(before, node, k), Links(after, Kids(node)[k]))
    ensures KidsBelow(after, node, k + 1) == KidsBelow(before, node, k) + Below(after, Kids(node)[k])
  {
    hide Tall, Links, Below, Refs, Shape, Look;
    KidsStillCover(g, before, after, node, k);
  }

  lemma TooTall(g: Graph, h: Memos, c: Memos, node: Json, active: set<string>)
    requires ValidMemo(g, h) && Shape(node) && Covers(g, h, Refs(node)) && Tall(h, node) > MAX_DEPTH
    ensures !Witness(g, c, node, active)
  {
    hide Tall, Links, Below, Refs, Shape, ValidMemo;
    if Witness(g, c, node, active) {
      WitnessAgrees(g, h, c, node);
    }
  }

  lemma TooLinked(g: Graph, h: Memos, c: Memos, node: Json, active: set<string>)
    requires ValidMemo(g, h) && Shape(node) && Look(node).RefView? && Look(node).digest in g.nodes
    requires var body := g.nodes[Look(node).digest];
             Shape(body) && Covers(g, h, Refs(body)) && Links(h, body) + 1 > MAX_DEPTH
    ensures !Witness(g, c, node, active)
  {
    hide Tall, Links, Below, Refs, Shape, Look;
    if Witness(g, c, node, active) {
      WitnessOfTarget(g, c, node, active);
      WitnessAgrees(g, h, c, g.nodes[Look(node).digest]);
    }
  }

  lemma RememberedRef(g: Graph, h: Memos, node: Json)
    requires ValidMemo(g, h) && Shape(node) && Look(node).RefView?
    requires var d := Look(node).digest; d in h && d in g.sizes && g.sizes[d] == Look(node).size
    ensures var m := h[Look(node).digest];
            && Covers(g, h, Refs(node)) && m.height <= MAX_DEPTH
            && Tall(h, node) == m.height && Links(h, node) == m.links
            && Below(h, node) == {Look(node).digest} + m.below
  {
    RefsByView(node);
    LinksByView(h, node);
    hide Tall, Links, Below, Refs, Shape, Look;
  }
}
