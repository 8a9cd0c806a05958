/** The encoded limit leaves room enough: typed nodes and references make a text at most a hundred
    times as long as its value, so within the logical limits nothing is refused for its encoding. */
module ContentHeadroom {
  import opened StrictJson
  import opened TypedNode
  import opened ContentEncoding
  import opened ContentDecoding
  import opened ContentCodec
  import opened ContentSpilling
  import opened Content

  /** The most that a byte of a value can cost in its node. */
  const RATIO := 100

  // ---------------------------------------------------------------- lengths of small texts

  predicate IsPlain(c: char) { 32 <= c as int < 127 && c != '\"' && c != '\\' }

  lemma {:induction false} PlainText(s: string)
    requires forall i :: 0 <= i < |s| ==> IsPlain(s[i])
    ensures Escaped(s) == s && Utf8Size(s) == |s|
  {
    if |s| > 0 {
      PlainText(s[1..]);
      assert s == [s[0]] + s[1..];
    }
  }

  lemma PlainString(s: string)
    requires forall i :: 0 <= i < |s| ==> IsPlain(s[i])
    ensures LogicalSize(JString(s)) == |s| + 2
  {
    PlainText(s);
    Utf8SizeConcat("\"" + s, "\"");
    Utf8SizeConcat("\"", s);
    assert Utf8Size("\"") == 1;
    assert Canonical(JString(s)) == "\"" + s + "\"";
  }

  lemma {:induction false} DecimalLength(n: nat)
    ensures Utf8Size(DecimalText(n)) <= if n == 0 then 1 else n
  {
    if n >= 10 {
      DecimalLength(n / 10);
      var last := [('0' as int + n % 10) as char];
      Utf8SizeConcat(DecimalText(n / 10), last);
      assert Utf8Size(last) == 1;
    }
  }

  lemma PairLength(a: Json, b: Json)
    ensures LogicalSize(JList([a, b])) == 3 + LogicalSize(a) + LogicalSize(b)
  {
    ContainerSize(JList([a, b]));
    hide LogicalSize;
    assert ItemsSize([a, b], 2) == 0;
    assert ItemsSize([a, b], 1) == 1 + LogicalSize(b);
  }

  lemma TripleLength(a: Json, b: Json, c: Json)
    ensures LogicalSize(JList([a, b, c])) == 4 + LogicalSize(a) + LogicalSize(b) + LogicalSize(c)
  {
    ContainerSize(JList([a, b, c]));
    hide LogicalSize;
    assert ItemsSize([a, b, c], 3) == 0;
    assert ItemsSize([a, b, c], 2) == 1 + LogicalSize(c);
    assert ItemsSize([a, b, c], 1) == 1 + LogicalSize(b) + ItemsSize([a, b, c], 2);
  }

  lemma SingleLength(a: Json)
    ensures LogicalSize(JList([a])) == 2 + LogicalSize(a)
  {
    ContainerSize(JList([a]));
    hide LogicalSize;
    assert ItemsSize([a], 1) == 0;
  }

  // ---------------------------------------------------------------- lengths of nodes

  lemma RefLength(digest: string, size: nat)
    requires IsDigest(digest) && size >= 1
    ensures LogicalSize(RefNode(digest, size)) <= RATIO * size
  {
    hide LogicalSize;
    TripleLength(JString("ref"), JString(digest), JInt(size));
    PlainString("ref");
    PlainString(digest);
    assert LogicalSize(JInt(size)) <= size by { DecimalLength(size); IntLength(size); }
  }

  lemma IntLength(size: nat)
    ensures LogicalSize(JInt(size)) == Utf8Size(DecimalText(size))
  {
  }

  function TagOf(v: Json): string
  {
    match v
    case JBool(_) => "bool"
    case JInt(_) => "int"
    case JFloat(_) => "float"
    case _ => "string"
  }

  lemma LeafNode(c: Codec, v: Json, depth: nat)
    requires Strict(v) && !v.JList? && !v.JDict?
    ensures Inline(c, v, depth) == if v.JNull? then JList([JString("null")]) else JList([JString(TagOf(v)), v])
  {
    assert Plain(v);
  }

  lemma TagLength(v: Json)
    ensures LogicalSize(JString(TagOf(v))) <= 8 && LogicalSize(JString("null")) == 6
  {
    PlainString(TagOf(v));
    PlainString("null");
  }

  lemma LeafLength(c: Codec, v: Json, depth: nat)
    requires Strict(v) && !v.JList? && !v.JDict?
    ensures LogicalSize(Inline(c, v, depth)) <= RATIO * LogicalSize(v)
  {
    hide *;
    CanonicalNotEmpty(v);
    LeafNode(c, v, depth);
    TagLength(v);
    SingleLength(JString("null"));
    PairLength(JString(TagOf(v)), v);
    RatioIs();
  }

  lemma RatioIs()
    ensures RATIO == 100
  {
  }

  lemma {:induction false} ItemsLength(children: seq<Json>, items: seq<Json>, k: nat)
    requires |children| == |items| && k <= |items|
    requires forall i :: 0 <= i < |items| ==> LogicalSize(children[i]) <= RATIO * LogicalSize(items[i])
    ensures ItemsSize(children, k) <= RATIO * ItemsSize(items, k)
    decreases |items| - k
  {
    hide LogicalSize;
    if k < |items| { ItemsLength(children, items, k + 1); }
  }

  lemma {:induction false} EntriesLength(pairs: seq<Json>, entries: seq<Entry>, k: nat)
    requires |pairs| == |entries| && k <= |entries|
    requires forall i :: 0 <= i < |entries| ==>
      LogicalSize(pairs[i]) <= 3 + LogicalSize(JString(entries[i].key)) + RATIO * LogicalSize(entries[i].value)
    ensures ItemsSize(pairs, k) <= RATIO * EntriesSize(entries, k)
    decreases |entries| - k
  {
    hide LogicalSize;
    if k < |entries| {
      EntriesLength(pairs, entries, k + 1);
      KeyLength(entries[k].key);
    }
  }

  lemma KeyLength(key: string)
    ensures LogicalSize(JString(key)) == Utf8Size(StringText(key)) && Utf8Size(StringText(key)) >= 1
  {
    Utf8SizeAtLeastLength(StringText(key));
  }

  lemma TaggedLength(tag: string, items: seq<Json>)
    requires |tag| == 4 && forall i :: 0 <= i < |tag| ==> IsPlain(tag[i])
    ensures LogicalSize(JList([JString(tag), JList(items)])) == 11 + ItemsSize(items, 0)
  {
    PairLength(JString(tag), JList(items));
    PlainString(tag);
    ContainerSize(JList(items));
    hide LogicalSize;
  }

  /** A node and its body are at most a hundred times as long as the value. */
  lemma {:induction false} NodeLength(c: Codec, v: Json, depth: nat)
    requires Strict(v)
    ensures LogicalSize(Inline(c, v, depth)) <= RATIO * LogicalSize(v)
    ensures LogicalSize(Node(c, v, depth)) <= RATIO * LogicalSize(v)
    decreases v, 1
  {
    hide *;
    if v.JList? {
      ListLength(c, v, depth);
    } else if v.JDict? {
      DictLength(c, v, depth);
    } else {
      LeafLength(c, v, depth);
    }
    SpilledLength(c, v, depth);
  }

  lemma SpilledLength(c: Codec, v: Json, depth: nat)
    requires Strict(v) && LogicalSize(Inline(c, v, depth)) <= RATIO * LogicalSize(v)
    ensures LogicalSize(Node(c, v, depth)) <= RATIO * LogicalSize(v)
  {
    CanonicalNotEmpty(v);
    hide LogicalSize, Strict, Inline, Canonical;
    if Spills(c, v, depth) { RefLength(Own(c, v, depth).digest, LogicalSize(v)); }
  }

  lemma {:induction false} ListLength(c: Codec, v: Json, depth: nat)
    requires Strict(v) && v.JList?
    ensures LogicalSize(Inline(c, v, depth)) <= RATIO * LogicalSize(v)
    decreases v, 0
  {
    var children := Inline(c, v, depth).items[1].items;
    assert Inline(c, v, depth) == JList([JString("list"), JList(children)]);
    hide LogicalSize, Strict, Node, Canonical;
    forall i | 0 <= i < |v.items| ensures LogicalSize(children[i]) <= RATIO * LogicalSize(v.items[i]) {
      StrictParts(v, i);
      NodeLength(c, v.items[i], depth + 1);
    }
    hide Inline;
    ItemsLength(children, v.items, 0);
    TaggedLength("list", children);
    ContainerSize(v);
  }

  lemma {:induction false} DictLength(c: Codec, v: Json, depth: nat)
    requires Strict(v) && v.JDict?
    ensures LogicalSize(Inline(c, v, depth)) <= RATIO * LogicalSize(v)
    decreases v, 0
  {
    var pairs := DictPairs(c, v, depth);
    hide *;
    forall i | 0 <= i < |v.entries|
      ensures LogicalSize(pairs[i]) <= 3 + LogicalSize(JString(v.entries[i].key)) + RATIO * LogicalSize(v.entries[i].value)
    {
      StrictParts(v, i);
      NodeLength(c, v.entries[i].value, depth + 1);
      PairNodeLength(v.entries[i].key, Node(c, v.entries[i].value, depth + 1));
    }
    DictSum(v, Inline(c, v, depth), pairs);
  }

  lemma DictPairs(c: Codec, v: Json, depth: nat) returns (pairs: seq<Json>)
    requires v.JDict?
    ensures Inline(c, v, depth) == JList([JString("dict"), JList(pairs)]) && |pairs| == |v.entries|
    ensures forall i :: 0 <= i < |pairs| ==> pairs[i] == PairNode(v.entries[i].key, Node(c, v.entries[i].value, depth + 1))
  {
    hide Node;
    pairs := Inline(c, v, depth).items[1].items;
  }

  lemma PairNodeLength(key: string, child: Json)
    ensures LogicalSize(PairNode(key, child)) == 3 + LogicalSize(JString(key)) + LogicalSize(child)
  {
    PairLength(JString(key), child);
  }

  lemma DictSum(v: Json, node: Json, pairs: seq<Json>)
    requires v.JDict? && node == JList([JString("dict"), JList(pairs)]) && |pairs| == |v.entries|
    requires forall i :: 0 <= i < |v.entries| ==>
      LogicalSize(pairs[i]) <= 3 + LogicalSize(JString(v.entries[i].key)) + RATIO * LogicalSize(v.entries[i].value)
    ensures LogicalSize(node) <= RATIO * LogicalSize(v)
  {
    EntriesLength(pairs, v.entries, 0);
    TaggedLength("dict", pairs);
    ContainerSize(v);
    hide LogicalSize;
  }

  // ---------------------------------------------------------------- encoding succeeds

  lemma {:induction false} PartIsStrict(v: Json, w: Json, k: nat)
    requires Strict(v) && Part(v, w, k)
    ensures Strict(w) && LogicalSize(w) <= LogicalSize(v)
    decreases k
  {
    hide Strict, LogicalSize;
    if k > 0 {
      var u := OneDown(v, w, k);
      ChildIsStrict(v, u);
      PartIsStrict(u, w, k - 1);
    }
  }

  lemma ChildIsStrict(v: Json, u: Json)
    requires Strict(v) && (v.JList? || v.JDict?)
    requires v.JList? ==> u in v.items
    requires v.JDict? ==> exists i :: 0 <= i < |v.entries| && v.entries[i].value == u
    ensures Strict(u) && LogicalSize(u) <= LogicalSize(v)
  {
    PartIsSmaller(v);
    hide Strict, LogicalSize;
    if v.JList? {
      var i :| 0 <= i < |v.items| && v.items[i] == u;
      StrictParts(v, i);
    } else {
      var i :| 0 <= i < |v.entries| && v.entries[i].value == u;
      StrictParts(v, i);
    }
  }

  lemma ObjectsFit(c: Codec, v: Json)
    requires Strict(v) && RATIO * LogicalSize(v) <= c.encodedLimit
    ensures Fits(c, Objects(c, v, 0))
  {
    hide Strict, LogicalSize, Objects, Inline, Part;
    forall o | o in Objects(c, v, 0) ensures Utf8Size(o.encoded) <= c.encodedLimit {
      var w, k := ObjectIsPart(c, v, 0, o);
      PartIsStrict(v, w, k);
      NodeLength(c, w, k);
      TextLength(Inline(c, w, k));
    }
  }

  lemma TextLength(v: Json)
    ensures Utf8Size(Canonical(v)) == LogicalSize(v)
  {
  }

  /** No two different contents under one digest, among the new objects or with the rows there. */
  predicate NoClash(rows: Table, objects: set<Object>)
  {
    && (forall o, p :: o in objects && p in objects && o.digest == p.digest ==> o == p)
    && (forall o :: o in objects && o.digest in rows ==> rows[o.digest] == Row(o.encoded, o.size))
  }

  /** With that much room for the encoded text, encoding succeeds exactly for strict JSON within the
      logical limits, whatever the threshold, unless one digest would stand for two contents. */
  lemma EncodesWithinLimits(
    digest: Hasher, rows: Table, v: Json, threshold: nat, maxLogical: nat, maxEncoded: nat, maxDepth: nat)
    requires RATIO * LogicalSize(v) + |CONTENT_PREFIX| <= maxEncoded
    ensures var c := CodecFor(digest, threshold, maxLogical, maxEncoded, maxDepth);
            Encodes(c, rows, v) <==>
              Strict(v) && Nesting(v) <= maxDepth && LogicalSize(v) <= maxLogical && NoClash(rows, Objects(c, v, 0))
  {
    var c := CodecFor(digest, threshold, maxLogical, maxEncoded, maxDepth);
    hide Strict, LogicalSize, Objects, Node, Nesting, Fits;
    if Strict(v) && LogicalSize(v) <= maxLogical {
      assert RATIO * LogicalSize(v) + |CONTENT_PREFIX| <= c.encodedLimit;
      ObjectsFit(c, v);
      NodeLength(c, v, 0);
      TextLength(Node(c, v, 0));
    }
    ClashesAgree(rows, Objects(c, v, 0));
    hide Agree, Consistent, NoClash;
  }

  lemma ClashesAgree(rows: Table, objects: set<Object>)
    ensures Agree(map[], objects) && Consistent(rows, objects) <==> NoClash(rows, objects)
  {
  }
}
