/** What the encoder of content.py computes, as functions of the value: the node that
    stands for a value at a depth, the objects it spills, and when it succeeds. */
module ContentEncoding {
  import opened StrictJson
  import opened TypedNode

  /** SHA-256 over a domain prefix, of which only the form of the result is used. */
  type Hasher = h: string -> string | forall s :: IsDigest(h(s)) ghost witness AllZeros

  function AllZeros(s: string): (digest: string)
    ensures IsDigest(digest)
  {
    seq(64, i => '0')
  }

  /** The hash and the limits that one call of the codec works with. */
  datatype Codec = Codec(digest: Hasher, threshold: nat, maximum: nat, encodedLimit: nat, maxDepth: nat)

  /** A row that the encoder wants in the object table. */
  datatype Object = Object(digest: string, encoded: string, size: nat)

  /** A node is stored apart when it is large and not at the deepest level. */
  predicate Spills(c: Codec, v: Json, depth: nat)
  {
    LogicalSize(v) >= c.threshold && depth < c.maxDepth
  }

  /** The node of a value at a depth, before its own spilling is decided. */
  function Inline(c: Codec, v: Json, depth: nat): Json
    decreases v, 0
  {
    match v
    case JNull => NullNode()
    case JBool(_) => ScalarNode("bool", v)
    case JInt(_) => ScalarNode("int", v)
    case JFloat(_) => ScalarNode("float", v)
    case JString(_) => ScalarNode("string", v)
    case JList(items) =>
      ListNode(seq(|items|, i requires 0 <= i < |items| => Node(c, items[i], depth + 1)))
    case JDict(entries) =>
      DictNode(seq(|entries|, i requires 0 <= i < |entries| =>
        PairNode(entries[i].key, Node(c, entries[i].value, depth + 1))))
    case JOther => JList([])
  }

  function Node(c: Codec, v: Json, depth: nat): Json
    decreases v, 2
  {
    if Spills(c, v, depth) then RefNode(Own(c, v, depth).digest, LogicalSize(v))
    else Inline(c, v, depth)
  }

  function Own(c: Codec, v: Json, depth: nat): Object
    decreases v, 1
  {
    var encoded := Canonical(Inline(c, v, depth));
    Object(c.digest(encoded), encoded, LogicalSize(v))
  }

  /** Every object that encoding a value at a depth spills. */
  function Objects(c: Codec, v: Json, depth: nat): set<Object>
    decreases v, 2
  {
    InnerObjects(c, v, depth) + if Spills(c, v, depth) then {Own(c, v, depth)} else {}
  }

  function InnerObjects(c: Codec, v: Json, depth: nat): set<Object>
    decreases v, 0
  {
    match v
    case JList(items) => ItemsObjects(c, items, |items|, depth + 1)
    case JDict(entries) => EntriesObjects(c, entries, |entries|, depth + 1)
    case _ => {}
  }

  function ItemsObjects(c: Codec, items: seq<Json>, n: nat, depth: nat): set<Object>
    requires n <= |items|
    decreases items, n
  {
    if n == 0 then {}
    else ItemsObjects(c, items, n - 1, depth) + Objects(c, items[n - 1], depth)
  }

  function EntriesObjects(c: Codec, entries: seq<Entry>, n: nat, depth: nat): set<Object>
    requires n <= |entries|
    decreases entries, n
  {
    if n == 0 then {}
    else EntriesObjects(c, entries, n - 1, depth) + Objects(c, entries[n - 1].value, depth)
  }

  predicate Fits(c: Codec, objects: set<Object>)
  {
    forall o :: o in objects ==> Utf8Size(o.encoded) <= c.encodedLimit
  }

  /** The value alone is within the limits of the codec at a depth. */
  predicate Encodable(c: Codec, v: Json, depth: nat)
  {
    && Strict(v)
    && depth + Nesting(v) <= c.maxDepth
    && LogicalSize(v) <= c.maximum
    && Fits(c, Objects(c, v, depth))
  }

  // ---------------------------------------------------------------- table agreement

  type Pending = map<string, (string, nat)>

  predicate Holds(m: Pending, o: Object)
  {
    o.digest in m && m[o.digest] == (o.encoded, o.size)
  }

  /** No two of the objects, and no object and pending row, share a digest but differ. */
  predicate Agree(m: Pending, objects: set<Object>)
  {
    && (forall o :: o in objects && o.digest in m ==> Holds(m, o))
    && (forall o, p :: o in objects && p in objects && o.digest == p.digest ==> o == p)
  }

  /** `after` is `before` with exactly the given objects added. */
  predicate Added(before: Pending, objects: set<Object>, after: Pending)
  {
    && (forall d :: d in before ==> d in after && after[d] == before[d])
    && (forall o :: o in objects ==> Holds(after, o))
    && (forall d :: d in after && d !in before ==> exists o :: o in objects && o.digest == d)
  }

  lemma AddedTwice(a: Pending, first: set<Object>, b: Pending, second: set<Object>, z: Pending)
    requires Added(a, first, b) && Added(b, second, z)
    ensures Added(a, first + second, z)
    ensures Agree(a, first + second) <==> Agree(a, first) && Agree(b, second)
  {
    assert forall o :: o in first ==> Holds(b, o);
    assert forall o :: o in second ==> Holds(z, o);
    assert forall d :: d in b ==> d in z && z[d] == b[d];
    forall o | o in first ensures Holds(z, o) { assert Holds(b, o); }
    forall d | d in z && d !in a
      ensures exists o :: o in first + second && o.digest == d
    {
      if d in b {
        var o :| o in first && o.digest == d;
        assert o in first + second;
      } else {
        var o :| o in second && o.digest == d;
        assert o in first + second;
      }
    }
    AddedAgrees(a, first, b);
    AddedAgrees(b, second, z);
    AddedAgrees(a, first + second, z);
  }

  /** Rows can only be added when they agree, because a map keeps one row per digest. */
  lemma AddedAgrees(before: Pending, objects: set<Object>, after: Pending)
    requires Added(before, objects, after)
    ensures Agree(before, objects)
  {
    forall o | o in objects && o.digest in before ensures Holds(before, o) {
      assert Holds(after, o);
    }
    forall o, p | o in objects && p in objects && o.digest == p.digest ensures o == p {
      assert Holds(after, o) && Holds(after, p);
    }
  }

  /** A disagreement of a part is a disagreement of the whole. */
  lemma DisagreementSpreads(a: Pending, first: set<Object>, b: Pending, second: set<Object>)
    requires Added(a, first, b) && !Agree(b, second)
    ensures !Agree(a, first + second)
  {
    if Agree(a, first + second) {
      forall o | o in second && o.digest in b ensures Holds(b, o) {
        if o.digest in a {
          assert o in first + second;
          assert Holds(a, o);
        } else {
          var p :| p in first && p.digest == o.digest;
          assert p in first + second && o in first + second;
          assert Holds(b, p);
        }
      }
      assert forall o :: o in second ==> o in first + second;
      assert Agree(b, second);
    }
  }

  // ---------------------------------------------------------------- measures of encoded nodes

  /** `n` is well typed, claims the length of `v` and is no deeper than `v`. */
  predicate Represents(n: Json, v: Json)
  {
    n.JList? && Shape(n) && NodeSize(n) == LogicalSize(v) && Height(n) <= Nesting(v)
  }

  /** An encoded node is well typed, claims exactly the length of its value, and is no
      deeper than its value: the depth that the encoder checked is the depth that the
      decoder will find. */
  lemma {:induction false} EncodedMeasures(c: Codec, v: Json, depth: nat)
    requires Strict(v)
    ensures Represents(Inline(c, v, depth), v)
    ensures Represents(Node(c, v, depth), v)
    decreases v, 1
  {
    hide LogicalSize, Represents, Inline, Canonical;
    if v.JList? {
      EncodedListMeasures(c, v, depth);
    } else if v.JDict? {
      EncodedDictMeasures(c, v, depth);
    } else {
      EncodedScalarMeasures(c, v, depth);
    }
    if Spills(c, v, depth) {
      RefMeasures(Own(c, v, depth).digest, v);
    }
  }

  lemma RefMeasures(digest: string, v: Json)
    requires IsDigest(digest)
    ensures Represents(RefNode(digest, LogicalSize(v)), v)
  {
    assert Look(RefNode(digest, LogicalSize(v))) == RefView(digest, LogicalSize(v));
  }

  lemma EncodedScalarMeasures(c: Codec, v: Json, depth: nat)
    requires Strict(v) && !v.JList? && !v.JDict?
    ensures Represents(Inline(c, v, depth), v)
  {
    if v.JNull? {
      assert Utf8Size("null") == 4;
    } else {
      assert Look(Inline(c, v, depth)) == ScalarView(v);
    }
  }

  lemma InlineList(c: Codec, items: seq<Json>, depth: nat)
    ensures var view := Look(Inline(c, JList(items), depth));
            && view.ListView? && |view.children| == |items|
            && forall i :: 0 <= i < |items| ==> view.children[i] == Node(c, items[i], depth + 1)
  {
  }

  lemma InlineDict(c: Codec, entries: seq<Entry>, depth: nat)
    ensures var view := Look(Inline(c, JDict(entries), depth));
            && view.DictView? && |view.pairs| == |entries|
            && forall i :: 0 <= i < |entries| ==>
              view.pairs[i] == PairNode(entries[i].key, Node(c, entries[i].value, depth + 1))
  {
  }

  lemma {:induction false} EncodedListMeasures(c: Codec, v: Json, depth: nat)
    requires Strict(v) && v.JList?
    ensures Represents(Inline(c, v, depth), v)
    decreases v, 0
  {
    hide LogicalSize, Inline, Look, Node;
    var items, n := v.items, Inline(c, v, depth);
    InlineList(c, items, depth);
    var children := Look(n).children;
    forall i | 0 <= i < |items|
      ensures Represents(children[i], items[i])
    {
      EncodedMeasures(c, items[i], depth + 1);
    }
    ContainerSize(v);
    ListMeasures(children, items, 0);
  }

  lemma {:induction false} EncodedDictMeasures(c: Codec, v: Json, depth: nat)
    requires Strict(v) && v.JDict?
    ensures Represents(Inline(c, v, depth), v)
    decreases v, 0
  {
    var entries, pairs := v.entries, Look(Inline(c, v, depth)).pairs;
    InlineDict(c, entries, depth);
    forall i | 0 <= i < |entries|
      ensures IsPair(pairs[i]) && PairKey(pairs[i]) == entries[i].key
      ensures Represents(PairChild(pairs[i]), entries[i].value)
    {
      hide LogicalSize, Inline, Look, Node, Represents, Strict, Plain, Ordered;
      assert Strict(entries[i].value) by { StrictParts(v, i); }
      EncodedMeasures(c, entries[i].value, depth + 1);
      PairOfNode(entries[i].key, Node(c, entries[i].value, depth + 1), entries[i].value);
    }
    DictRepresents(Inline(c, v, depth), v, pairs);
  }

  lemma StrictParts(v: Json, i: nat)
    requires Strict(v)
    ensures v.JDict? && i < |v.entries| ==> Strict(v.entries[i].value)
    ensures v.JList? && i < |v.items| ==> Strict(v.items[i])
  {
  }

  lemma PairOfNode(key: string, child: Json, v: Json)
    requires Represents(child, v)
    ensures IsPair(PairNode(key, child))
    ensures PairKey(PairNode(key, child)) == key && PairChild(PairNode(key, child)) == child
  {
  }

  lemma DictRepresents(n: Json, v: Json, pairs: seq<Json>)
    requires Strict(v) && v.JDict? && n.JList? && Look(n) == DictView(pairs) && |pairs| == |v.entries|
    requires forall i :: 0 <= i < |pairs| ==>
      && IsPair(pairs[i]) && PairKey(pairs[i]) == v.entries[i].key
      && Represents(PairChild(pairs[i]), v.entries[i].value)
    ensures Represents(n, v)
  {
    hide LogicalSize, Look;
    ContainerSize(v);
    DictMeasures(pairs, v.entries, 0);
  }

  lemma {:induction false} ListMeasures(children: seq<Json>, items: seq<Json>, k: nat)
    requires k <= |children| == |items|
    requires forall i :: 0 <= i < |items| ==> Represents(children[i], items[i])
    ensures ChildrenSize(children, k) == ItemsSize(items, k)
    ensures ChildrenHeight(children, k) <= ItemsNesting(items, k)
    decreases |items| - k
  {
    if k < |items| {
      ListMeasures(children, items, k + 1);
    }
  }

  lemma {:induction false} DictMeasures(pairs: seq<Json>, entries: seq<Entry>, k: nat)
    requires k <= |pairs| == |entries|
    requires forall i :: 0 <= i < |entries| ==>
      && IsPair(pairs[i]) && PairKey(pairs[i]) == entries[i].key
      && Represents(PairChild(pairs[i]), entries[i].value)
    ensures PairsSize(pairs, k) == EntriesSize(entries, k)
    ensures PairsHeight(pairs, k) <= EntriesNesting(entries, k)
    decreases |entries| - k
  {
    if k < |entries| {
      DictMeasures(pairs, entries, k + 1);
    }
  }

  // ---------------------------------------------------------------- parts of an encodable value

  lemma {:induction false} ItemsObjectsCover(c: Codec, items: seq<Json>, n: nat, depth: nat)
    requires n <= |items|
    ensures forall i :: 0 <= i < n ==> Objects(c, items[i], depth) <= ItemsObjects(c, items, n, depth)
  {
    hide Objects;
    if n > 0 {
      ItemsObjectsCover(c, items, n - 1, depth);
    }
  }

  lemma {:induction false} EntriesObjectsCover(c: Codec, entries: seq<Entry>, n: nat, depth: nat)
    requires n <= |entries|
    ensures forall i :: 0 <= i < n ==>
      Objects(c, entries[i].value, depth) <= EntriesObjects(c, entries, n, depth)
  {
    hide Objects;
    if n > 0 {
      EntriesObjectsCover(c, entries, n - 1, depth);
    }
  }

  /** Every part of an encodable value is encodable one level down, and is smaller. */
  lemma EncodableParts(c: Codec, v: Json, depth: nat)
    requires Encodable(c, v, depth)
    ensures v.JList? ==> forall i :: 0 <= i < |v.items| ==>
      && Encodable(c, v.items[i], depth + 1)
      && Objects(c, v.items[i], depth + 1) <= InnerObjects(c, v, depth)
      && LogicalSize(v.items[i]) < LogicalSize(v)
    ensures v.JDict? ==> forall i :: 0 <= i < |v.entries| ==>
      && Encodable(c, v.entries[i].value, depth + 1)
      && Objects(c, v.entries[i].value, depth + 1) <= InnerObjects(c, v, depth)
      && LogicalSize(v.entries[i].value) < LogicalSize(v)
  {
    hide *;
    if v.JList? {
      forall i | 0 <= i < |v.items|
        ensures Encodable(c, v.items[i], depth + 1) && Objects(c, v.items[i], depth + 1) <= InnerObjects(c, v, depth)
        ensures LogicalSize(v.items[i]) < LogicalSize(v)
      {
        PartOf(c, v, v.items[i], i, depth);
        PartEncodable(c, v, v.items[i], depth);
      }
    } else if v.JDict? {
      forall i | 0 <= i < |v.entries|
        ensures Encodable(c, v.entries[i].value, depth + 1)
        ensures Objects(c, v.entries[i].value, depth + 1) <= InnerObjects(c, v, depth)
        ensures LogicalSize(v.entries[i].value) < LogicalSize(v)
      {
        PartOf(c, v, v.entries[i].value, i, depth);
        PartEncodable(c, v, v.entries[i].value, depth);
      }
    }
  }

  /** What the part of a container is next to the whole. */
  lemma PartOf(c: Codec, v: Json, part: Json, i: nat, depth: nat)
    requires Encodable(c, v, depth)
    requires (v.JList? && i < |v.items| && part == v.items[i]) || (v.JDict? && i < |v.entries| && part == v.entries[i].value)
    ensures Strict(part) && 1 + Nesting(part) <= Nesting(v) && LogicalSize(part) < LogicalSize(v)
    ensures Objects(c, part, depth + 1) <= InnerObjects(c, v, depth)
  {
    PartIsSmaller(v);
    hide LogicalSize, Objects;
    if v.JList? {
      ItemsNestingCovers(v.items, 0);
      ItemsObjectsCover(c, v.items, |v.items|, depth + 1);
    } else {
      EntriesNestingCovers(v.entries, 0);
      EntriesObjectsCover(c, v.entries, |v.entries|, depth + 1);
    }
  }

  lemma PartEncodable(c: Codec, v: Json, part: Json, depth: nat)
    requires Encodable(c, v, depth) && Strict(part) && 1 + Nesting(part) <= Nesting(v)
    requires LogicalSize(part) < LogicalSize(v) && Objects(c, part, depth + 1) <= InnerObjects(c, v, depth)
    ensures Encodable(c, part, depth + 1)
  {
    hide LogicalSize, Strict, Nesting, InnerObjects;
    assert InnerObjects(c, v, depth) <= Objects(c, v, depth);
  }
}
