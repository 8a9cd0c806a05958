/** What the decoder of content.py returns for a node over an arbitrary object table,
    without its cache, and what a successful decode implies. */
module ContentDecoding {
  import opened StrictJson
  import opened TypedNode
  import opened ContentEncoding

  datatype Row = Row(encoded: string, size: int)

  type Table = map<string, Row>

  /** `loads` is Python's JSON text parser, which is not part of this model. */
  datatype Reader = Reader(table: Table, loads: string -> Option<Json>, codec: Codec)

  /** How far a text parser reaches: the numbers whose text it reads back, such as the floats as
      Python prints them and the integers within Python's limit on digits, and how deeply it
      nests before it gives up. */
  datatype Reach = Reach(number: Json -> bool, nesting: nat)

  /** The one law of the text parser that is used: within its reach it reads canonical text back. */
  ghost predicate ReadsBack(loads: string -> Option<Json>, reach: Reach)
  {
    forall v :: Strict(v) && NumbersIn(v, reach.number) && Nesting(v) <= reach.nesting ==>
      loads(Canonical(v)) == Some(v)
  }

  /** The lengths that references carry and the levels of typed nodes are within reach: a value
      inside a dict is three levels further down in its node. */
  ghost predicate Reaches(reach: Reach, c: Codec)
  {
    3 * c.maxDepth + 1 <= reach.nesting && forall n: nat :: n <= c.maximum ==> reach.number(JInt(n))
  }

  ghost predicate Parses(r: Reader, reach: Reach) { ReadsBack(r.loads, reach) && Reaches(reach, r.codec) }

  function Parse(r: Reader, encoded: string): (node: Option<Json>)
    ensures node.Some? ==> Canonical(node.value) == encoded && node.value.JList?
  {
    if Utf8Size(encoded) > r.codec.encodedLimit then None
    else
      match r.loads(encoded)
      case None => None
      case Some(node) =>
        if !Strict(node) || Canonical(node) != encoded || !node.JList? then None else Some(node)
  }

  /** The body of an object, after every check that the first load of it makes. */
  function Fetch(r: Reader, digest: string, expected: nat, depth: nat): (body: Option<Json>)
    ensures body.Some? ==> NodeSize(body.value) == expected && digest in r.table
  {
    if digest !in r.table then None
    else
      var row := r.table[digest];
      if row.size != expected || Utf8Size(row.encoded) > r.codec.encodedLimit then None
      else
        match Parse(r, row.encoded)
        case None => None
        case Some(body) =>
          if r.codec.digest(row.encoded) != digest
             || !Measurable(body, depth, r.codec.maxDepth, r.codec.maximum)
             || NodeSize(body) != expected
          then None
          else Some(body)
  }

  /** References that may still be followed below the active chain. */
  function Room(r: Reader, active: set<string>): nat
  {
    if |active| < r.codec.maxDepth then r.codec.maxDepth - |active| else 0
  }

  /** May a reference be followed while the chain `active` is open? */
  predicate Follows(r: Reader, digest: string, size: nat, active: set<string>)
  {
    size <= r.codec.maximum && digest !in active && |active| < r.codec.maxDepth
  }

  function Decode(r: Reader, node: Json, depth: nat, active: set<string>): Option<Json>
    decreases Room(r, active), node, 1
  {
    if !Measurable(node, depth, r.codec.maxDepth, r.codec.maximum) || NodeSize(node) > r.codec.maximum
    then None
    else
      match Look(node)
      case NullView => Some(JNull)
      case ScalarView(scalar) => Some(scalar)
      case RefView(digest, size) =>
        if !Follows(r, digest, size, active) then None
        else
          var body := Fetch(r, digest, size, depth);
          if body.None? then None else Decode(r, body.value, depth, active + {digest})
      case ListView(children) =>
        var items := DecodeItems(r, children, 0, depth + 1, active);
        if items.None? then None else Some(JList(items.value))
      case DictView(pairs) =>
        var entries := DecodePairs(r, pairs, 0, depth + 1, active);
        if entries.None? then None else Some(JDict(entries.value))
      case Invalid => None
  }

  function DecodeItems(r: Reader, children: seq<Json>, k: nat, depth: nat, active: set<string>)
    : (items: Option<seq<Json>>)
    requires k <= |children|
    ensures items.Some? ==> |items.value| == |children| - k
    decreases Room(r, active), children, |children| - k
  {
    if k == |children| then Some([])
    else
      var first := Decode(r, children[k], depth, active);
      var rest := DecodeItems(r, children, k + 1, depth, active);
      if first.None? || rest.None? then None else Some([first.value] + rest.value)
  }

  function DecodePairs(r: Reader, pairs: seq<Json>, k: nat, depth: nat, active: set<string>)
    : (entries: Option<seq<Entry>>)
    requires k <= |pairs|
    ensures entries.Some? ==> |entries.value| == |pairs| - k
    decreases Room(r, active), pairs, |pairs| - k
  {
    if k == |pairs| then Some([])
    else if !IsPair(pairs[k]) then None
    else
      var first := Decode(r, PairChild(pairs[k]), depth, active);
      var rest := DecodePairs(r, pairs, k + 1, depth, active);
      if first.None? || rest.None? then None
      else Some([Entry(PairKey(pairs[k]), first.value)] + rest.value)
  }

  /** The objects that decoding a node loads, each of them once. */
  function Loaded(r: Reader, node: Json, depth: nat, active: set<string>): set<string>
    decreases Room(r, active), node, 1
  {
    match Look(node)
    case RefView(digest, size) =>
      if !Follows(r, digest, size, active) then {}
      else
        var body := Fetch(r, digest, size, depth);
        if body.None? then {} else {digest} + Loaded(r, body.value, depth, active + {digest})
    case ListView(children) => LoadedItems(r, children, |children|, depth + 1, active)
    case DictView(pairs) => LoadedPairs(r, pairs, |pairs|, depth + 1, active)
    case _ => {}
  }

  function LoadedItems(r: Reader, children: seq<Json>, n: nat, depth: nat, active: set<string>): set<string>
    requires n <= |children|
    decreases Room(r, active), children, n
  {
    if n == 0 then {}
    else LoadedItems(r, children, n - 1, depth, active) + Loaded(r, children[n - 1], depth, active)
  }

  function LoadedPairs(r: Reader, pairs: seq<Json>, n: nat, depth: nat, active: set<string>): set<string>
    requires n <= |pairs|
    decreases Room(r, active), pairs, n
  {
    if n == 0 then {}
    else
      LoadedPairs(r, pairs, n - 1, depth, active)
      + if IsPair(pairs[n - 1]) then Loaded(r, PairChild(pairs[n - 1]), depth, active) else {}
  }

  // ---------------------------------------------------------------- decoded values

  /** Whatever the table holds and however often objects are shared, a decoded value is
      strict JSON whose canonical length is the length that its node claims. */
  lemma {:induction false} DecodedSize(r: Reader, node: Json, depth: nat, active: set<string>)
    requires Decode(r, node, depth, active).Some?
    ensures var v := Decode(r, node, depth, active).value;
            Strict(v) && LogicalSize(v) == NodeSize(node) <= r.codec.maximum
    decreases Room(r, active), node, 1
  {
    hide LogicalSize, Strict, Look, Measurable, NodeSize, Fetch, Decode, DecodeItems, DecodePairs, Follows;
    var v := Decode(r, node, depth, active).value;
    NodeSizeByView(node);
    DecodedByView(r, node, depth, active);
    match Look(node)
    case NullView => NullFacts();
    case RefView(digest, size) =>
      DecodedSize(r, Fetch(r, digest, size, depth).value, depth, active + {digest});
    case ListView(children) => DecodedList(r, node, children, depth, active, v);
    case DictView(pairs) => DecodedDict(r, node, pairs, depth, active, v);
    case _ =>
  }

  lemma {:induction false} DecodedList(r: Reader, node: Json, children: seq<Json>, depth: nat, active: set<string>, v: Json)
    requires Look(node) == ListView(children) && v.JList?
    requires DecodeItems(r, children, 0, depth + 1, active) == Some(v.items)
    ensures Strict(v) && LogicalSize(v) == 2 + ChildrenSize(children, 0)
    decreases Room(r, active), node, 0
  {
    hide LogicalSize, Strict, Look, NodeSize, Decode, DecodeItems, ChildrenSize, Room;
    DecodedItemsSize(r, children, 0, depth + 1, active);
    DecodedListSize(children, v.items);
  }

  lemma {:induction false} DecodedDict(r: Reader, node: Json, pairs: seq<Json>, depth: nat, active: set<string>, v: Json)
    requires Look(node) == DictView(pairs) && v.JDict? && Measurable(node, depth, r.codec.maxDepth, r.codec.maximum)
    requires DecodePairs(r, pairs, 0, depth + 1, active) == Some(v.entries)
    ensures Strict(v) && LogicalSize(v) == 2 + PairsSize(pairs, 0)
    decreases Room(r, active), node, 0
  {
    hide LogicalSize, Strict, Look, NodeSize, Decode, DecodePairs, PairsSize, Measurable, Room, SameEntry, PairsInOrder;
    DecodedPairsSize(r, pairs, 0, depth + 1, active);
    MeasurableInOrder(r, node, depth);
    DecodedDictSize(pairs, v.entries);
  }

  /** What a successful decode of each kind of node went through. */
  lemma DecodedByView(r: Reader, node: Json, depth: nat, active: set<string>)
    requires Decode(r, node, depth, active).Some?
    ensures Measurable(node, depth, r.codec.maxDepth, r.codec.maximum) && NodeSize(node) <= r.codec.maximum
    ensures !Look(node).Invalid?
    ensures Look(node).NullView? ==> Decode(r, node, depth, active) == Some(JNull)
    ensures Look(node).ScalarView? ==> Decode(r, node, depth, active) == Some(Look(node).scalar)
    ensures Look(node).RefView? ==>
      var digest, size := Look(node).digest, Look(node).size;
      && Follows(r, digest, size, active) && Room(r, active + {digest}) < Room(r, active)
      && Fetch(r, digest, size, depth).Some?
      && Decode(r, Fetch(r, digest, size, depth).value, depth, active + {digest})
         == Decode(r, node, depth, active)
    ensures Look(node).ListView? ==>
      var items := DecodeItems(r, Look(node).children, 0, depth + 1, active);
      items.Some? && Decode(r, node, depth, active) == Some(JList(items.value))
    ensures Look(node).DictView? ==>
      var entries := DecodePairs(r, Look(node).pairs, 0, depth + 1, active);
      entries.Some? && Decode(r, node, depth, active) == Some(JDict(entries.value))
  {
    hide LogicalSize, Look, Measurable, NodeSize, Fetch, DecodeItems, DecodePairs;
  }

  lemma NodeSizeByView(node: Json)
    ensures match Look(node)
            case NullView => NodeSize(node) == 4
            case ScalarView(scalar) => NodeSize(node) == LogicalSize(scalar) && Strict(scalar)
            case RefView(_, size) => NodeSize(node) == size
            case ListView(children) => NodeSize(node) == 2 + ChildrenSize(children, 0)
            case DictView(pairs) => NodeSize(node) == 2 + PairsSize(pairs, 0)
            case Invalid => true
  {
    hide LogicalSize;
  }

  lemma MeasurableInOrder(r: Reader, node: Json, depth: nat)
    requires Measurable(node, depth, r.codec.maxDepth, r.codec.maximum)
    ensures Look(node).DictView? ==> PairsInOrder(Look(node).pairs, |Look(node).pairs|)
  {
    hide Look, NodeSize, Height;
  }

  lemma NullFacts()
    ensures Strict(JNull) && LogicalSize(JNull) == 4
  {
    assert Utf8Size("null") == 4;
  }

  lemma {:induction false} DecodedItemsSize(
    r: Reader, children: seq<Json>, k: nat, depth: nat, active: set<string>)
    requires k <= |children| && DecodeItems(r, children, k, depth, active).Some?
    ensures var items := DecodeItems(r, children, k, depth, active).value;
            forall i :: 0 <= i < |items| ==>
              Strict(items[i]) && LogicalSize(items[i]) == NodeSize(children[k + i])
    decreases Room(r, active), children, |children| - k
  {
    hide LogicalSize, Strict, Decode, NodeSize;
    if k < |children| {
      DecodedSize(r, children[k], depth, active);
      DecodedItemsSize(r, children, k + 1, depth, active);
    }
  }

  /** `entry` is strict, has the key of `pair` and the length that its child claims. */
  predicate SameEntry(pair: Json, entry: Entry)
  {
    && IsPair(pair) && entry.key == PairKey(pair)
    && Strict(entry.value) && LogicalSize(entry.value) == NodeSize(PairChild(pair))
  }

  lemma {:induction false} DecodedPairsSize(
    r: Reader, pairs: seq<Json>, k: nat, depth: nat, active: set<string>)
    requires k <= |pairs| && DecodePairs(r, pairs, k, depth, active).Some?
    ensures var entries := DecodePairs(r, pairs, k, depth, active).value;
            forall i :: 0 <= i < |entries| ==> SameEntry(pairs[k + i], entries[i])
    decreases Room(r, active), pairs, |pairs| - k
  {
    hide LogicalSize, Strict, Decode, NodeSize;
    if k < |pairs| {
      DecodedSize(r, PairChild(pairs[k]), depth, active);
      DecodedPairsSize(r, pairs, k + 1, depth, active);
      var entries := DecodePairs(r, pairs, k, depth, active).value;
      var rest := DecodePairs(r, pairs, k + 1, depth, active).value;
      forall i | 0 <= i < |entries| ensures SameEntry(pairs[k + i], entries[i]) {
        if i > 0 {
          assert entries[i] == rest[i - 1] && SameEntry(pairs[k + 1 + (i - 1)], rest[i - 1]);
        }
      }
    }
  }

  lemma DecodedListSize(children: seq<Json>, items: seq<Json>)
    requires |children| == |items|
    requires forall i :: 0 <= i < |items| ==>
      Strict(items[i]) && LogicalSize(items[i]) == NodeSize(children[i])
    ensures Strict(JList(items)) && LogicalSize(JList(items)) == 2 + ChildrenSize(children, 0)
  {
    hide LogicalSize;
    ContainerSize(JList(items));
    SameItemsSize(children, items, 0);
  }

  lemma {:induction false} SameItemsSize(children: seq<Json>, items: seq<Json>, k: nat)
    requires k <= |children| == |items|
    requires forall i :: 0 <= i < |items| ==> LogicalSize(items[i]) == NodeSize(children[i])
    ensures ChildrenSize(children, k) == ItemsSize(items, k)
    decreases |items| - k
  {
    hide LogicalSize, NodeSize;
    if k < |items| {
      SameItemsSize(children, items, k + 1);
    }
  }

  lemma DecodedDictSize(pairs: seq<Json>, entries: seq<Entry>)
    requires |pairs| == |entries| && PairsInOrder(pairs, |pairs|)
    requires forall i :: 0 <= i < |entries| ==> SameEntry(pairs[i], entries[i])
    ensures Strict(JDict(entries)) && LogicalSize(JDict(entries)) == 2 + PairsSize(pairs, 0)
  {
    hide LogicalSize;
    ContainerSize(JDict(entries));
    SameEntriesSize(pairs, entries, 0);
  }

  lemma {:induction false} SameEntriesSize(pairs: seq<Json>, entries: seq<Entry>, k: nat)
    requires k <= |pairs| == |entries|
    requires forall i :: 0 <= i < |entries| ==> SameEntry(pairs[i], entries[i])
    ensures PairsSize(pairs, k) == EntriesSize(entries, k)
    decreases |entries| - k
  {
    hide LogicalSize, NodeSize;
    if k < |entries| {
      SameEntriesSize(pairs, entries, k + 1);
    }
  }

  // ---------------------------------------------------------------- round trip

  /** The table has a row for every object, with exactly its text and length. */
  predicate Stores(table: Table, objects: set<Object>)
  {
    forall o :: o in objects ==> o.digest in table && table[o.digest] == Row(o.encoded, o.size)
  }

  /** Every object on the active chain is longer than `size`. */
  predicate Above(table: Table, active: set<string>, size: nat)
  {
    forall d :: d in active ==> d in table && table[d].size > size
  }

  lemma DecodeReference(r: Reader, node: Json, digest: string, size: nat, depth: nat, active: set<string>)
    requires Look(node) == RefView(digest, size) && depth <= r.codec.maxDepth
    requires Follows(r, digest, size, active) && Fetch(r, digest, size, depth).Some?
    ensures Decode(r, node, depth, active)
         == Decode(r, Fetch(r, digest, size, depth).value, depth, active + {digest})
  {
    hide Look, Fetch, Height;
    assert Measurable(node, depth, r.codec.maxDepth, r.codec.maximum) && NodeSize(node) == size by {
      ReferenceMeasures(node, digest, size);
    }
    hide Measurable, NodeSize;
  }

  lemma ReferenceMeasures(node: Json, digest: string, size: nat)
    requires Look(node) == RefView(digest, size)
    ensures Shape(node) && NodeSize(node) == size && Height(node) == 0 && !IsFilled(node)
  {
  }

  lemma DecodeContainer(r: Reader, node: Json, depth: nat, active: set<string>)
    requires Measurable(node, depth, r.codec.maxDepth, r.codec.maximum)
    requires NodeSize(node) <= r.codec.maximum
    ensures Look(node).ListView? ==>
      Decode(r, node, depth, active) ==
        var items := DecodeItems(r, Look(node).children, 0, depth + 1, active);
        if items.None? then None else Some(JList(items.value))
    ensures Look(node).DictView? ==>
      Decode(r, node, depth, active) ==
        var entries := DecodePairs(r, Look(node).pairs, 0, depth + 1, active);
        if entries.None? then None else Some(JDict(entries.value))
  {
    hide Look, DecodeItems, DecodePairs, Measurable, NodeSize;
  }

  lemma FollowedHasLessRoom(r: Reader, digest: string, size: nat, active: set<string>)
    requires Follows(r, digest, size, active)
    ensures Room(r, active + {digest}) < Room(r, active)
  {
  }

  /** A table that stores the objects of an encoded value decodes its node to the value.
      A digest cannot reappear below itself because lengths fall along the chain, and the
      chain at depth `d` has at most `d` entries because each level spills at most once. */
  lemma {:induction false} NodeDecodes(r: Reader, reach: Reach, v: Json, depth: nat, active: set<string>)
    requires Parses(r, reach) && NumbersIn(v, reach.number) && Encodable(r.codec, v, depth)
    requires Stores(r.table, Objects(r.codec, v, depth))
    requires |active| <= depth && Above(r.table, active, LogicalSize(v))
    ensures Decode(r, Node(r.codec, v, depth), depth, active) == Some(v)
    decreases v, 2
  {
    hide *;
    NodeParts(r, v, depth);
    if Spills(r.codec, v, depth) {
      SpilledDecodes(r, reach, v, depth, active);
      InlineDecodes(r, reach, v, depth, active + {Own(r.codec, v, depth).digest}, LogicalSize(v) - 1);
    } else {
      InlineDecodes(r, reach, v, depth, active, LogicalSize(v));
    }
  }

  lemma NodeParts(r: Reader, v: Json, depth: nat)
    requires Stores(r.table, Objects(r.codec, v, depth))
    ensures Stores(r.table, InnerObjects(r.codec, v, depth))
    ensures !Spills(r.codec, v, depth) ==> Node(r.codec, v, depth) == Inline(r.codec, v, depth)
  {
    hide LogicalSize, Inline, InnerObjects, Own;
    assert InnerObjects(r.codec, v, depth) <= Objects(r.codec, v, depth);
  }

  /** A spilled node means what its object means, one reference further down. */
  lemma SpilledDecodes(r: Reader, reach: Reach, v: Json, depth: nat, active: set<string>)
    requires Parses(r, reach) && NumbersIn(v, reach.number) && Encodable(r.codec, v, depth) && Spills(r.codec, v, depth)
    requires Stores(r.table, Objects(r.codec, v, depth))
    requires |active| <= depth && Above(r.table, active, LogicalSize(v))
    ensures var c, own := r.codec, Own(r.codec, v, depth);
            && LogicalSize(v) >= 1 && |active + {own.digest}| <= depth + 1 && Above(r.table, active + {own.digest}, LogicalSize(v) - 1)
            && Decode(r, Node(c, v, depth), depth, active) == Decode(r, Inline(c, v, depth), depth, active + {own.digest})
  {
    hide *;
    SpillsWithin(r.codec, v, depth);
    SpilledFetch(r, reach, v, depth);
    SpilledNode(r.codec, v, depth);
    var own := Own(r.codec, v, depth);
    ChainGrows(r, active, own.digest, own.size, depth);
    DecodeReference(r, Node(r.codec, v, depth), own.digest, own.size, depth, active);
  }

  /** A shorter object than all on the chain may be followed next. */
  lemma ChainGrows(r: Reader, active: set<string>, digest: string, size: nat, depth: nat)
    requires Above(r.table, active, size) && digest in r.table && r.table[digest].size == size >= 1
    requires |active| <= depth < r.codec.maxDepth && size <= r.codec.maximum
    ensures Follows(r, digest, size, active) && |active + {digest}| <= depth + 1
    ensures Above(r.table, active + {digest}, size - 1)
  {
  }

  lemma SpillsWithin(c: Codec, v: Json, depth: nat)
    requires Encodable(c, v, depth) && Spills(c, v, depth)
    ensures depth < c.maxDepth && LogicalSize(v) <= c.maximum
  {
    hide LogicalSize, Inline, Objects;
  }

  lemma SpilledNode(c: Codec, v: Json, depth: nat)
    requires Spills(c, v, depth)
    ensures Look(Node(c, v, depth)) == RefView(Own(c, v, depth).digest, LogicalSize(v))
    ensures Own(c, v, depth).size == LogicalSize(v)
  {
    hide LogicalSize, Canonical, Inline;
  }

  /** A spilled object passes every check of its first load. */
  lemma SpilledFetch(r: Reader, reach: Reach, v: Json, depth: nat)
    requires Parses(r, reach) && NumbersIn(v, reach.number) && Encodable(r.codec, v, depth) && Spills(r.codec, v, depth)
    requires Stores(r.table, Objects(r.codec, v, depth))
    ensures var own := Own(r.codec, v, depth);
            && Fetch(r, own.digest, own.size, depth) == Some(Inline(r.codec, v, depth))
            && own.digest in r.table && r.table[own.digest].size == own.size == LogicalSize(v) >= 1
  {
    hide LogicalSize, Canonical, Inline, Strict, NumbersIn, Nesting;
    var own, body := Own(r.codec, v, depth), Inline(r.codec, v, depth);
    assert own in Objects(r.codec, v, depth);
    EncodedMeasures(r.codec, v, depth);
    EncodedIsStrict(r.codec, v, depth);
    EncodedInReach(r.codec, v, depth, reach);
    CanonicalNotEmpty(v);
    assert r.loads(Canonical(body)) == Some(body);
  }

  lemma CanonicalNotEmpty(v: Json)
    requires Strict(v)
    ensures LogicalSize(v) >= 1
  {
    Utf8SizeAtLeastLength(Canonical(v));
  }

  lemma {:induction false} InlineDecodes(r: Reader, reach: Reach, v: Json, depth: nat, active: set<string>, floor: nat)
    requires Parses(r, reach) && NumbersIn(v, reach.number) && Encodable(r.codec, v, depth)
    requires Stores(r.table, InnerObjects(r.codec, v, depth))
    requires |active| <= depth + 1 && Above(r.table, active, floor) && floor + 1 >= LogicalSize(v)
    ensures Decode(r, Inline(r.codec, v, depth), depth, active) == Some(v)
    decreases v, 1
  {
    hide *;
    if v.JList? {
      InlineListDecodes(r, reach, v, depth, active, floor);
    } else if v.JDict? {
      InlineDictDecodes(r, reach, v, depth, active, floor);
    } else {
      ScalarDecodes(r, v, depth, active);
    }
  }

  lemma {:induction false} InlineListDecodes(r: Reader, reach: Reach, v: Json, depth: nat, active: set<string>, floor: nat)
    requires Parses(r, reach) && NumbersIn(v, reach.number) && Encodable(r.codec, v, depth) && v.JList?
    requires Stores(r.table, InnerObjects(r.codec, v, depth))
    requires |active| <= depth + 1 && Above(r.table, active, floor) && floor + 1 >= LogicalSize(v)
    ensures Decode(r, Inline(r.codec, v, depth), depth, active) == Some(v)
    decreases v, 1, 0
  {
    hide LogicalSize, Objects, Canonical, Node, Inline, Decode, DecodeItems, InnerObjects, Encodable, Look, Measurable;
    var c, node := r.codec, Inline(r.codec, v, depth);
    EncodableParts(c, v, depth);
    InlineList(c, v.items, depth);
    InlineMeasurable(c, v, depth);
    ItemsDecode(r, reach, v, depth, active, Look(node).children, 0);
    DecodeContainer(r, node, depth, active);
  }

  lemma {:induction false} InlineDictDecodes(r: Reader, reach: Reach, v: Json, depth: nat, active: set<string>, floor: nat)
    requires Parses(r, reach) && NumbersIn(v, reach.number) && Encodable(r.codec, v, depth) && v.JDict?
    requires Stores(r.table, InnerObjects(r.codec, v, depth))
    requires |active| <= depth + 1 && Above(r.table, active, floor) && floor + 1 >= LogicalSize(v)
    ensures Decode(r, Inline(r.codec, v, depth), depth, active) == Some(v)
    decreases v, 1, 0
  {
    hide LogicalSize, Objects, Canonical, Node, Inline, Decode, DecodePairs, InnerObjects, Encodable, Look, Measurable;
    var c, node := r.codec, Inline(r.codec, v, depth);
    EncodableParts(c, v, depth);
    InlineDict(c, v.entries, depth);
    InlineMeasurable(c, v, depth);
    forall i | 0 <= i < |v.entries|
      ensures var pair, child := Look(node).pairs[i], Node(c, v.entries[i].value, depth + 1);
              IsPair(pair) && PairKey(pair) == v.entries[i].key && PairChild(pair) == child
    {
      EncodedPart(c, v.entries[i], depth + 1);
    }
    EntriesDecode(r, reach, v, depth, active, Look(node).pairs, 0);
    DecodeContainer(r, node, depth, active);
  }

  lemma EncodedPart(c: Codec, entry: Entry, depth: nat)
    requires Encodable(c, entry.value, depth)
    ensures var pair := PairNode(entry.key, Node(c, entry.value, depth));
            IsPair(pair) && PairKey(pair) == entry.key && PairChild(pair) == Node(c, entry.value, depth)
  {
    hide Node, Represents, Strict, Objects;
    EncodedMeasures(c, entry.value, depth);
    PairOfNode(entry.key, Node(c, entry.value, depth), entry.value);
  }

  lemma InlineMeasurable(c: Codec, v: Json, depth: nat)
    requires Encodable(c, v, depth)
    ensures Measurable(Inline(c, v, depth), depth, c.maxDepth, c.maximum)
    ensures NodeSize(Inline(c, v, depth)) == LogicalSize(v) <= c.maximum
  {
    hide LogicalSize, Inline, Objects, Canonical, Shape, NodeSize, Height, Nesting;
    EncodedMeasures(c, v, depth);
  }

  lemma ScalarDecodes(r: Reader, v: Json, depth: nat, active: set<string>)
    requires Encodable(r.codec, v, depth) && !v.JList? && !v.JDict?
    ensures Decode(r, Inline(r.codec, v, depth), depth, active) == Some(v)
  {
    InlineMeasurable(r.codec, v, depth);
    hide LogicalSize, Objects, Canonical;
    if !v.JNull? {
      assert Look(Inline(r.codec, v, depth)) == ScalarView(v);
    }
  }

  lemma {:induction false} ItemsDecode(
    r: Reader, reach: Reach, v: Json, depth: nat, active: set<string>, children: seq<Json>, k: nat)
    requires Parses(r, reach) && NumbersIn(v, reach.number) && v.JList? && k <= |v.items| == |children|
    requires |active| <= depth + 1
    requires forall i :: 0 <= i < |v.items| ==>
      && Encodable(r.codec, v.items[i], depth + 1)
      && Stores(r.table, Objects(r.codec, v.items[i], depth + 1))
      && Above(r.table, active, LogicalSize(v.items[i]))
      && children[i] == Node(r.codec, v.items[i], depth + 1)
    ensures DecodeItems(r, children, k, depth + 1, active) == Some(v.items[k..])
    decreases v, 0, |children| - k
  {
    hide LogicalSize, Objects, Node, Decode, Encodable, Parses, Stores, Above;
    if k < |children| {
      NodeDecodes(r, reach, v.items[k], depth + 1, active);
      ItemsDecode(r, reach, v, depth, active, children, k + 1);
      assert v.items[k..] == [v.items[k]] + v.items[k + 1..];
    }
  }

  lemma {:induction false} EntriesDecode(
    r: Reader, reach: Reach, v: Json, depth: nat, active: set<string>, pairs: seq<Json>, k: nat)
    requires Parses(r, reach) && NumbersIn(v, reach.number) && v.JDict? && k <= |v.entries| == |pairs|
    requires |active| <= depth + 1
    requires forall i :: 0 <= i < |v.entries| ==>
      && Encodable(r.codec, v.entries[i].value, depth + 1)
      && Stores(r.table, Objects(r.codec, v.entries[i].value, depth + 1))
      && Above(r.table, active, LogicalSize(v.entries[i].value))
      && IsPair(pairs[i]) && PairKey(pairs[i]) == v.entries[i].key
      && PairChild(pairs[i]) == Node(r.codec, v.entries[i].value, depth + 1)
    ensures DecodePairs(r, pairs, k, depth + 1, active) == Some(v.entries[k..])
    decreases v, 0, |pairs| - k
  {
    hide LogicalSize, Objects, Node, Decode, Encodable, Parses, Stores, Above;
    if k < |pairs| {
      NodeDecodes(r, reach, v.entries[k].value, depth + 1, active);
      EntriesDecode(r, reach, v, depth, active, pairs, k + 1);
      assert v.entries[k..] == [v.entries[k]] + v.entries[k + 1..];
    }
  }

  /** Typed nodes are themselves strict JSON, so their stored text reads back. */
  lemma {:induction false} EncodedIsStrict(c: Codec, v: Json, depth: nat)
    requires Strict(v)
    ensures Strict(Inline(c, v, depth)) && Strict(Node(c, v, depth))
    decreases v, 1
  {
    hide *;
    if v.JList? {
      ListIsStrict(c, v, depth);
    } else if v.JDict? {
      DictIsStrict(c, v, depth);
    } else {
      LeafIsStrict(c, v, depth);
    }
    NodeIsStrict(c, v, depth);
  }

  lemma LeafIsStrict(c: Codec, v: Json, depth: nat)
    requires Strict(v) && !v.JList? && !v.JDict?
    ensures Strict(Inline(c, v, depth))
  {
    ScalarIsStrict(v);
    assert Plain(v);
    hide LogicalSize, Canonical, Strict;
  }

  lemma {:induction false} ListIsStrict(c: Codec, v: Json, depth: nat)
    requires Strict(v) && v.JList?
    ensures Strict(Inline(c, v, depth))
    decreases v, 0
  {
    hide LogicalSize, Canonical, Strict, Node;
    forall i | 0 <= i < |v.items| ensures Strict(Node(c, v.items[i], depth + 1)) {
      StrictParts(v, i);
      EncodedIsStrict(c, v.items[i], depth + 1);
    }
    TaggedIsStrict("list", Inline(c, v, depth).items[1].items);
  }

  lemma {:induction false} DictIsStrict(c: Codec, v: Json, depth: nat)
    requires Strict(v) && v.JDict?
    ensures Strict(Inline(c, v, depth))
    decreases v, 0
  {
    hide LogicalSize, Canonical, Strict, Node;
    forall i | 0 <= i < |v.entries|
      ensures Strict(PairNode(v.entries[i].key, Node(c, v.entries[i].value, depth + 1)))
    {
      StrictParts(v, i);
      EncodedIsStrict(c, v.entries[i].value, depth + 1);
      PairIsStrict(v.entries[i].key, Node(c, v.entries[i].value, depth + 1));
    }
    TaggedIsStrict("dict", Inline(c, v, depth).items[1].items);
  }

  lemma NodeIsStrict(c: Codec, v: Json, depth: nat)
    requires Strict(Inline(c, v, depth))
    ensures Strict(Node(c, v, depth))
  {
    hide LogicalSize, Canonical, Strict, Inline;
    RefIsStrict(Own(c, v, depth).digest, LogicalSize(v));
  }

  lemma TaggedIsStrict(tag: string, items: seq<Json>)
    requires forall i :: 0 <= i < |items| ==> Strict(items[i])
    ensures Strict(JList([JString(tag), JList(items)]))
  {
    assert Strict(JString(tag)) && Strict(JList(items));
  }

  lemma RefIsStrict(digest: string, size: nat)
    ensures Strict(RefNode(digest, size))
  {
    assert Strict(JString(digest)) && Strict(JInt(size)) && Strict(JString("ref"));
  }

  lemma ScalarIsStrict(v: Json)
    requires Strict(v)
    ensures Strict(NullNode()) && forall tag :: Strict(ScalarNode(tag, v))
  {
    assert Strict(JString("null"));
    forall tag ensures Strict(ScalarNode(tag, v)) {
      assert Strict(JString(tag));
    }
  }

  lemma PairIsStrict(key: string, child: Json)
    requires Strict(child)
    ensures Strict(PairNode(key, child))
  {
  }

  // ---------------------------------------------------------------- within the parser's reach

  /** A typed node has no numbers but those of its value and the lengths of what it spilled. */
  lemma {:induction false} EncodedNumbers(c: Codec, v: Json, depth: nat, known: Json -> bool)
    requires NumbersIn(v, known) && forall n: nat :: n <= c.maximum ==> known(JInt(n))
    requires LogicalSize(v) <= c.maximum
    ensures NumbersIn(Inline(c, v, depth), known) && NumbersIn(Node(c, v, depth), known)
    decreases v
  {
    hide LogicalSize, Canonical;
    PartIsSmaller(v);
    if v.JList? {
      hide Node, NumbersIn;
      forall i | 0 <= i < |v.items| ensures NumbersIn(Node(c, v.items[i], depth + 1), known) {
        NumbersOfPart(v, i, known);
        EncodedNumbers(c, v.items[i], depth + 1, known);
      }
      TaggedNumbers("list", Inline(c, v, depth).items[1].items, known);
    } else if v.JDict? {
      hide Node, NumbersIn;
      forall i | 0 <= i < |v.entries|
        ensures NumbersIn(PairNode(v.entries[i].key, Node(c, v.entries[i].value, depth + 1)), known)
      {
        NumbersOfPart(v, i, known);
        EncodedNumbers(c, v.entries[i].value, depth + 1, known);
        ListedNumbers([JString(v.entries[i].key), Node(c, v.entries[i].value, depth + 1)], known);
      }
      TaggedNumbers("dict", Inline(c, v, depth).items[1].items, known);
    }
    NodeNumbers(c, v, depth, known);
  }

  lemma NodeNumbers(c: Codec, v: Json, depth: nat, known: Json -> bool)
    requires NumbersIn(Inline(c, v, depth), known) && known(JInt(LogicalSize(v)))
    ensures NumbersIn(Node(c, v, depth), known)
  {
    hide LogicalSize, Canonical, Inline;
  }

  lemma NumbersOfPart(v: Json, i: nat, known: Json -> bool)
    requires NumbersIn(v, known)
    ensures v.JList? && i < |v.items| ==> NumbersIn(v.items[i], known)
    ensures v.JDict? && i < |v.entries| ==> NumbersIn(v.entries[i].value, known)
  {
  }

  lemma ListedNumbers(items: seq<Json>, known: Json -> bool)
    requires forall i :: 0 <= i < |items| ==> items[i].JString? || NumbersIn(items[i], known)
    ensures NumbersIn(JList(items), known)
  {
  }

  lemma TaggedNumbers(tag: string, items: seq<Json>, known: Json -> bool)
    requires forall i :: 0 <= i < |items| ==> NumbersIn(items[i], known)
    ensures NumbersIn(JList([JString(tag), JList(items)]), known)
  {
    ListedNumbers(items, known);
    hide NumbersIn;
    ListedNumbers([JString(tag), JList(items)], known);
  }

  /** A list is two levels above its parts in its node, a dict three. */
  lemma {:induction false} EncodedNesting(c: Codec, v: Json, depth: nat)
    ensures Nesting(Inline(c, v, depth)) <= 3 * Nesting(v) + 1 && Nesting(Node(c, v, depth)) <= 3 * Nesting(v) + 1
    decreases v
  {
    hide LogicalSize, Canonical;
    var node, bound := Inline(c, v, depth), 3 * Nesting(v) + 1;
    if v.JList? {
      hide Node, Nesting;
      PartsNesting(v);
      forall i | 0 <= i < |v.items| ensures Nesting(Node(c, v.items[i], depth + 1)) + 3 <= bound {
        EncodedNesting(c, v.items[i], depth + 1);
      }
      TaggedNesting("list", node.items[1].items, bound);
    } else if v.JDict? {
      hide Node, Nesting;
      PartsNesting(v);
      forall i | 0 <= i < |v.entries|
        ensures Nesting(PairNode(v.entries[i].key, Node(c, v.entries[i].value, depth + 1))) + 2 <= bound
      {
        EncodedNesting(c, v.entries[i].value, depth + 1);
        ListedNesting([JString(v.entries[i].key), Node(c, v.entries[i].value, depth + 1)], bound - 2);
      }
      TaggedNesting("dict", node.items[1].items, bound);
    } else {
      ListedNesting(node.items, 1);
    }
    NodeNesting(c, v, depth, bound);
  }

  lemma NodeNesting(c: Codec, v: Json, depth: nat, bound: nat)
    requires Nesting(Inline(c, v, depth)) <= bound && bound >= 1
    ensures Nesting(Node(c, v, depth)) <= bound
  {
    hide LogicalSize, Canonical, Inline, Nesting;
    ListedNesting(RefNode(Own(c, v, depth).digest, LogicalSize(v)).items, bound);
  }

  lemma PartsNesting(v: Json)
    ensures v.JList? ==> forall i :: 0 <= i < |v.items| ==> 1 + Nesting(v.items[i]) <= Nesting(v)
    ensures v.JDict? ==> forall i :: 0 <= i < |v.entries| ==> 1 + Nesting(v.entries[i].value) <= Nesting(v)
  {
    if v.JList? { ItemsNestingCovers(v.items, 0); }
    if v.JDict? { EntriesNestingCovers(v.entries, 0); }
  }

  lemma ListedNesting(items: seq<Json>, bound: nat)
    requires bound >= 1 && forall i :: 0 <= i < |items| ==> (items[i].JString? || items[i].JInt? || items[i].JBool? || items[i].JFloat? || Nesting(items[i]) + 1 <= bound)
    ensures Nesting(JList(items)) <= bound
  {
    ItemsNestingAtMost(items, 0, bound);
  }

  lemma TaggedNesting(tag: string, items: seq<Json>, bound: nat)
    requires bound >= 1 && forall i :: 0 <= i < |items| ==> Nesting(items[i]) + 2 <= bound
    ensures Nesting(JList([JString(tag), JList(items)])) <= bound
  {
    if |items| == 0 {
      assert Nesting(JList(items)) == 0;
    } else {
      assert Nesting(items[0]) + 2 <= bound;
      ListedNesting(items, bound - 1);
    }
    hide Nesting;
    ListedNesting([JString(tag), JList(items)], bound);
  }

  /** What the encoder stores for a value whose numbers are known is within the parser's reach. */
  lemma EncodedInReach(c: Codec, v: Json, depth: nat, reach: Reach)
    requires Reaches(reach, c) && NumbersIn(v, reach.number) && Encodable(c, v, depth)
    ensures NumbersIn(Inline(c, v, depth), reach.number) && Nesting(Inline(c, v, depth)) <= reach.nesting
    ensures NumbersIn(Node(c, v, depth), reach.number) && Nesting(Node(c, v, depth)) <= reach.nesting
  {
    hide LogicalSize, Canonical, Inline, Node, NumbersIn, Nesting, Strict, Objects;
    EncodedNumbers(c, v, depth, reach.number);
    EncodedNesting(c, v, depth);
  }

  // ---------------------------------------------------------------- the threshold does not matter

  function Unthresholded(r: Reader, n: nat): Reader { r.(codec := r.codec.(threshold := n)) }

  lemma SameParse(r: Reader, n: nat, encoded: string)
    ensures Parse(Unthresholded(r, n), encoded) == Parse(r, encoded)
  {
    hide Strict, Canonical, Utf8Size;
  }

  lemma SameFetch(r: Reader, n: nat, digest: string, size: nat, depth: nat)
    ensures Fetch(Unthresholded(r, n), digest, size, depth) == Fetch(r, digest, size, depth)
  {
    hide Parse, Utf8Size, Measurable, NodeSize;
    if digest in r.table { SameParse(r, n, r.table[digest].encoded); }
  }

  /** Only the encoder looks at the threshold. */
  lemma {:induction false} SameDecode(r: Reader, n: nat, node: Json, depth: nat, active: set<string>)
    ensures Decode(Unthresholded(r, n), node, depth, active) == Decode(r, node, depth, active)
    decreases Room(r, active), node, 1
  {
    hide Measurable, NodeSize, Fetch, Look, Decode, DecodeItems, DecodePairs;
    match Look(node)
    case RefView(digest, size) =>
      SameFetch(r, n, digest, size, depth);
      if Follows(r, digest, size, active) && Fetch(r, digest, size, depth).Some? {
        SameDecode(r, n, Fetch(r, digest, size, depth).value, depth, active + {digest});
      }
      SameReference(r, n, node, depth, active);
    case ListView(children) => SameItems(r, n, children, 0, depth + 1, active); SameContainer(r, n, node, depth, active);
    case DictView(pairs) => SamePairs(r, n, pairs, 0, depth + 1, active); SameContainer(r, n, node, depth, active);
    case _ => SameContainer(r, n, node, depth, active);
  }

  lemma SameReference(r: Reader, n: nat, node: Json, depth: nat, active: set<string>)
    requires Look(node).RefView?
    requires var digest, size := Look(node).digest, Look(node).size;
             Follows(r, digest, size, active) && Fetch(r, digest, size, depth).Some? ==>
               var body, below := Fetch(r, digest, size, depth).value, active + {digest};
               Decode(Unthresholded(r, n), body, depth, below) == Decode(r, body, depth, below)
    ensures Decode(Unthresholded(r, n), node, depth, active) == Decode(r, node, depth, active)
  {
    hide Measurable, NodeSize, Fetch, Look, DecodeItems, DecodePairs;
    SameFetch(r, n, Look(node).digest, Look(node).size, depth);
  }

  lemma SameContainer(r: Reader, n: nat, node: Json, depth: nat, active: set<string>)
    requires !Look(node).RefView?
    requires Look(node).ListView? ==>
      DecodeItems(Unthresholded(r, n), Look(node).children, 0, depth + 1, active) == DecodeItems(r, Look(node).children, 0, depth + 1, active)
    requires Look(node).DictView? ==>
      DecodePairs(Unthresholded(r, n), Look(node).pairs, 0, depth + 1, active) == DecodePairs(r, Look(node).pairs, 0, depth + 1, active)
    ensures Decode(Unthresholded(r, n), node, depth, active) == Decode(r, node, depth, active)
  {
    hide Measurable, NodeSize, Fetch, Look, DecodeItems, DecodePairs;
  }

  lemma {:induction false} SameItems(r: Reader, n: nat, children: seq<Json>, k: nat, depth: nat, active: set<string>)
    requires k <= |children|
    ensures DecodeItems(Unthresholded(r, n), children, k, depth, active) == DecodeItems(r, children, k, depth, active)
    decreases Room(r, active), children, |children| - k
  {
    if k < |children| {
      hide Decode;
      SameDecode(r, n, children[k], depth, active);
      SameItems(r, n, children, k + 1, depth, active);
    }
  }

  lemma {:induction false} SamePairs(r: Reader, n: nat, pairs: seq<Json>, k: nat, depth: nat, active: set<string>)
    requires k <= |pairs|
    ensures DecodePairs(Unthresholded(r, n), pairs, k, depth, active) == DecodePairs(r, pairs, k, depth, active)
    decreases Room(r, active), pairs, |pairs| - k
  {
    if k < |pairs| && IsPair(pairs[k]) {
      hide Decode;
      SameDecode(r, n, PairChild(pairs[k]), depth, active);
      SamePairs(r, n, pairs, k + 1, depth, active);
    }
  }
}
