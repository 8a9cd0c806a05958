/** The decoder object of content.py, which caches verified objects and spends a read
    budget, refines the decoding function that does neither. */
module ContentDecoder {
  import opened StrictJson
  import opened TypedNode
  import opened ContentEncoding
  import opened ContentDecoding
  import opened ContentStore

  // ---------------------------------------------------------------- measuring

  lemma MeasurableByParts(node: Json, depth: nat, maxDepth: nat, maximum: nat)
    ensures Look(node).Invalid? ==> !Measurable(node, depth, maxDepth, maximum)
    ensures Look(node).NullView? || Look(node).ScalarView? || Look(node).RefView? ==>
      (Measurable(node, depth, maxDepth, maximum) <==> depth <= maxDepth)
    ensures Look(node).ListView? ==>
      var children := Look(node).children;
      Measurable(node, depth, maxDepth, maximum) <==>
        && depth <= maxDepth
        && (forall i :: 0 <= i < |children| ==>
              children[i].JList? && Measurable(children[i], depth + 1, maxDepth, maximum))
        && (|children| > 0 ==> NodeSize(node) <= maximum)
    ensures Look(node).DictView? ==>
      var pairs := Look(node).pairs;
      Measurable(node, depth, maxDepth, maximum) <==>
        && depth <= maxDepth
        && PairsInOrder(pairs, |pairs|)
        && (forall i :: 0 <= i < |pairs| ==>
              Measurable(PairChild(pairs[i]), depth + 1, maxDepth, maximum))
        && (|pairs| > 0 ==> NodeSize(node) <= maximum)
  {
    hide NodeSize;
    if Measurable(node, depth, maxDepth, maximum) {
      MeasurableParts(node, depth, maxDepth, maximum);
    }
    match Look(node)
    case ListView(children) =>
      if depth <= maxDepth && forall i :: 0 <= i < |children| ==>
           children[i].JList? && Measurable(children[i], depth + 1, maxDepth, maximum) {
        ChildrenHeightAtMost(children, 0, maxDepth - depth);
      }
    case DictView(pairs) =>
      if depth <= maxDepth && PairsInOrder(pairs, |pairs|) && forall i :: 0 <= i < |pairs| ==>
           Measurable(PairChild(pairs[i]), depth + 1, maxDepth, maximum) {
        PairsHeightAtMost(pairs, 0, maxDepth - depth);
      }
    case _ =>
  }

  /** The measuring loop of the decoder, with its bound checks after every child. */
  method Measure(c: Codec, node: Json, depth: nat) returns (size: Option<nat>)
    ensures size.Some? <==> Measurable(node, depth, c.maxDepth, c.maximum)
    ensures size.Some? ==> size.value == NodeSize(node)
    decreases node, 1
  {
    MeasurableByParts(node, depth, c.maxDepth, c.maximum);
    NodeSizeByView(node);
    hide Measurable, NodeSize, LogicalSize;
    if depth > c.maxDepth {
      assert !Measurable(node, depth, c.maxDepth, c.maximum) by { TooDeep(node, depth, c.maxDepth, c.maximum); }
      return None;
    }
    match Look(node)
    case NullView => size := Some(4);
    case ScalarView(scalar) => size := Some(Utf8Size(Canonical(scalar))); ScalarSize(scalar);
    case RefView(_, claimed) => size := Some(claimed);
    case ListView(children) => size := MeasureList(c, node, depth);
    case DictView(pairs) => size := MeasureDict(c, node, depth);
    case Invalid => size := None;
  }

  lemma TooDeep(node: Json, depth: nat, maxDepth: nat, maximum: nat)
    requires depth > maxDepth
    ensures !Measurable(node, depth, maxDepth, maximum)
  {
  }

  lemma ScalarSize(scalar: Json)
    ensures LogicalSize(scalar) == Utf8Size(Canonical(scalar))
  {
  }

  method MeasureList(c: Codec, node: Json, depth: nat) returns (size: Option<nat>)
    requires depth <= c.maxDepth && Look(node).ListView?
    ensures size.Some? <==> Measurable(node, depth, c.maxDepth, c.maximum)
    ensures size.Some? ==> size.value == NodeSize(node)
    decreases node, 0
  {
    MeasurableByParts(node, depth, c.maxDepth, c.maximum);
    NodeSizeByView(node);
    hide Measurable, NodeSize, LogicalSize;
    var children := Look(node).children;
    var total, index := 2, 0;
    while index < |children|
      invariant 0 <= index <= |children|
      invariant total + ChildrenSize(children, index) == NodeSize(node)
      invariant index > 0 ==> total <= c.maximum
      invariant forall i :: 0 <= i < index ==>
        children[i].JList? && Measurable(children[i], depth + 1, c.maxDepth, c.maximum)
    {
      if !children[index].JList? {
        return None;
      }
      var child := Measure(c, children[index], depth + 1);
      if child.None? {
        return None;
      }
      total := total + child.value + (if index > 0 then 1 else 0);
      if total > c.maximum {
        return None;
      }
      index := index + 1;
    }
    return Some(total);
  }

  method MeasureDict(c: Codec, node: Json, depth: nat) returns (size: Option<nat>)
    requires depth <= c.maxDepth && Look(node).DictView?
    ensures size.Some? <==> Measurable(node, depth, c.maxDepth, c.maximum)
    ensures size.Some? ==> size.value == NodeSize(node)
    decreases node, 0
  {
    MeasurableByParts(node, depth, c.maxDepth, c.maximum);
    NodeSizeByView(node);
    hide Measurable, NodeSize, LogicalSize, StringText, StringLess, Utf8Size;
    var pairs := Look(node).pairs;
    var total, index, previous: Option<string> := 2, 0, None;
    while index < |pairs|
      invariant 0 <= index <= |pairs|
      invariant total + PairsSize(pairs, index) == NodeSize(node)
      invariant index > 0 ==> total <= c.maximum
      invariant PairsInOrder(pairs, index)
      invariant previous == if index > 0 then Some(PairKey(pairs[index - 1])) else None
      invariant forall i :: 0 <= i < index ==>
        Measurable(PairChild(pairs[i]), depth + 1, c.maxDepth, c.maximum)
    {
      var pair := pairs[index];
      if !IsPair(pair) {
        return None;
      }
      if previous.Some? && !StringLess(previous.value, PairKey(pair)) {
        return None;
      }
      previous := Some(PairKey(pair));
      total := total + Utf8Size(StringText(PairKey(pair))) + 1;
      var child := Measure(c, PairChild(pair), depth + 1);
      if child.None? {
        return None;
      }
      total := total + child.value + (if index > 0 then 1 else 0);
      if total > c.maximum {
        return None;
      }
      index := index + 1;
    }
    return Some(total);
  }

  // ---------------------------------------------------------------- budget accounting

  /** What a decoder has loaded so far and what is left of its allowance. A decoder
      without a read budget has `metered` false and its allowance is irrelevant. */
  datatype Meter = Meter(known: set<string>, left: nat)

  /** The objects `needed` are loaded between two readings of the meter: each one that was
      not known before is paid for once. */
  ghost predicate Paid(table: Table, metered: bool, needed: set<string>, before: Meter, after: Meter)
  {
    && after.known == before.known + needed
    && (metered ==> after.left + Cost(table, needed - before.known) == before.left)
  }

  /** The allowance does not cover the objects that still have to be loaded. */
  ghost predicate Short(table: Table, metered: bool, needed: set<string>, before: Meter)
  {
    metered && before.left < Cost(table, needed - before.known)
  }

  /** A metered computation of `expected` that needs some objects: it returns the expected
      value and has paid for the objects, or the expected failure, or the allowance is short. */
  ghost predicate Outcome(
    table: Table, metered: bool, expected: Option<Json>, needed: set<string>, v: Option<Json>,
    before: Meter, after: Meter)
  {
    && (v.Some? ==> v == expected && Paid(table, metered, needed, before, after))
    && (v.None? && expected.Some? ==> Short(table, metered, needed, before))
  }

  lemma PaidTwice(
    table: Table, metered: bool, first: set<string>, second: set<string>, a: Meter, b: Meter, z: Meter)
    requires Paid(table, metered, first, a, b) && Paid(table, metered, second, b, z)
    ensures Paid(table, metered, first + second, a, z)
  {
    CostUnion(table, first - a.known, second - b.known);
    assert (first + second) - a.known == (first - a.known) + (second - b.known);
  }

  lemma ShortLater(
    table: Table, metered: bool, first: set<string>, second: set<string>, whole: set<string>,
    a: Meter, b: Meter)
    requires Paid(table, metered, first, a, b) && Short(table, metered, second, b)
    requires first + second <= whole
    ensures Short(table, metered, whole, a)
  {
    CostUnion(table, first - a.known, second - b.known);
    assert (first + second) - a.known == (first - a.known) + (second - b.known);
    CostMonotone(table, (first + second) - a.known, whole - a.known);
  }

  lemma PaidOne(table: Table, metered: bool, digest: string, before: Meter, after: Meter)
    requires after.known == before.known + {digest}
    requires metered ==>
      after.left + (if digest in before.known then 0 else Bytes(table, digest)) == before.left
    ensures Paid(table, metered, {digest}, before, after)
  {
    if digest !in before.known {
      assert {digest} - before.known == {digest};
      CostWithout(table, {digest}, digest);
      assert {digest} - {digest} == {};
    } else {
      assert {digest} - before.known == {};
    }
  }

  lemma ShortNow(table: Table, metered: bool, digest: string, whole: set<string>, before: Meter)
    requires metered && before.left < Bytes(table, digest) && digest in whole && digest !in before.known
    ensures Short(table, metered, whole, before)
  {
    CostWithout(table, whole - before.known, digest);
  }

  // ---------------------------------------------------------------- containers

  lemma {:induction false} LoadedItemsGrow(
    r: Reader, children: seq<Json>, m: nat, n: nat, depth: nat, active: set<string>)
    requires m <= n <= |children|
    ensures LoadedItems(r, children, m, depth, active) <= LoadedItems(r, children, n, depth, active)
    decreases n
  {
    hide Loaded;
    if m < n {
      LoadedItemsGrow(r, children, m, n - 1, depth, active);
    }
  }

  lemma {:induction false} LoadedPairsGrow(
    r: Reader, pairs: seq<Json>, m: nat, n: nat, depth: nat, active: set<string>)
    requires m <= n <= |pairs|
    ensures LoadedPairs(r, pairs, m, depth, active) <= LoadedPairs(r, pairs, n, depth, active)
    decreases n
  {
    hide Loaded;
    if m < n {
      LoadedPairsGrow(r, pairs, m, n - 1, depth, active);
    }
  }

  lemma {:induction false} ItemsFromEach(
    r: Reader, children: seq<Json>, k: nat, depth: nat, active: set<string>, items: seq<Json>)
    requires k <= |children| == |items|
    requires forall i :: 0 <= i < |items| ==> Decode(r, children[i], depth, active) == Some(items[i])
    ensures DecodeItems(r, children, k, depth, active) == Some(items[k..])
    decreases |children| - k
  {
    hide Decode;
    if k < |children| {
      ItemsFromEach(r, children, k + 1, depth, active, items);
      assert items[k..] == [items[k]] + items[k + 1..];
    }
  }

  lemma {:induction false} ItemsNeedEach(
    r: Reader, children: seq<Json>, k: nat, depth: nat, active: set<string>, i: nat)
    requires k <= i < |children| && Decode(r, children[i], depth, active).None?
    ensures DecodeItems(r, children, k, depth, active).None?
    decreases i - k
  {
    hide Decode;
    if k < i {
      ItemsNeedEach(r, children, k + 1, depth, active, i);
    }
  }

  lemma {:induction false} PairsFromEach(
    r: Reader, pairs: seq<Json>, k: nat, depth: nat, active: set<string>, entries: seq<Entry>)
    requires k <= |pairs| == |entries|
    requires forall i :: 0 <= i < |entries| ==>
      && IsPair(pairs[i]) && entries[i].key == PairKey(pairs[i])
      && Decode(r, PairChild(pairs[i]), depth, active) == Some(entries[i].value)
    ensures DecodePairs(r, pairs, k, depth, active) == Some(entries[k..])
    decreases |pairs| - k
  {
    hide Decode;
    if k < |pairs| {
      PairsFromEach(r, pairs, k + 1, depth, active, entries);
      assert entries[k..] == [entries[k]] + entries[k + 1..];
    }
  }

  lemma {:induction false} PairsNeedEach(
    r: Reader, pairs: seq<Json>, k: nat, depth: nat, active: set<string>, i: nat)
    requires k <= i < |pairs|
    requires IsPair(pairs[i]) ==> Decode(r, PairChild(pairs[i]), depth, active).None?
    ensures DecodePairs(r, pairs, k, depth, active).None?
    decreases i - k
  {
    hide Decode;
    if k < i {
      PairsNeedEach(r, pairs, k + 1, depth, active, i);
    }
  }

  /** The state of the list loop after decoding `items`. */
  ghost predicate ListSoFar(
    r: Reader, metered: bool, children: seq<Json>, depth: nat, active: set<string>,
    items: seq<Json>, start: Meter, now: Meter)
  {
    && |items| <= |children|
    && (forall i :: 0 <= i < |items| ==> Decode(r, children[i], depth, active) == Some(items[i]))
    && Paid(r.table, metered, LoadedItems(r, children, |items|, depth, active), start, now)
  }

  lemma ListStart(r: Reader, metered: bool, children: seq<Json>, depth: nat, active: set<string>, now: Meter)
    ensures ListSoFar(r, metered, children, depth, active, [], now, now)
  {
    hide Decode;
    assert LoadedItems(r, children, 0, depth, active) == {};
  }

  lemma ListStep(
    r: Reader, metered: bool, children: seq<Json>, depth: nat, active: set<string>,
    items: seq<Json>, v: Json, start: Meter, now: Meter, next: Meter)
    requires ListSoFar(r, metered, children, depth, active, items, start, now) && |items| < |children|
    requires var child := children[|items|];
             Outcome(r.table, metered, Decode(r, child, depth, active), Loaded(r, child, depth, active),
                     Some(v), now, next)
    ensures ListSoFar(r, metered, children, depth, active, items + [v], start, next)
  {
    hide Decode, Loaded, Paid;
    PaidTwice(r.table, metered, LoadedItems(r, children, |items|, depth, active),
              Loaded(r, children[|items|], depth, active), start, now, next);
  }

  lemma ListFails(
    r: Reader, metered: bool, children: seq<Json>, depth: nat, active: set<string>,
    items: seq<Json>, start: Meter, now: Meter, next: Meter)
    requires ListSoFar(r, metered, children, depth, active, items, start, now) && |items| < |children|
    requires var child := children[|items|];
             Outcome(r.table, metered, Decode(r, child, depth, active), Loaded(r, child, depth, active),
                     None, now, next)
    ensures DecodeItems(r, children, 0, depth, active).Some? ==>
      Short(r.table, metered, LoadedItems(r, children, |children|, depth, active), start)
  {
    hide Decode, Loaded, Paid, Short;
    if Decode(r, children[|items|], depth, active).None? {
      ItemsNeedEach(r, children, 0, depth, active, |items|);
    } else {
      LoadedItemsGrow(r, children, |items| + 1, |children|, depth, active);
      ShortLater(r.table, metered, LoadedItems(r, children, |items|, depth, active),
                 Loaded(r, children[|items|], depth, active),
                 LoadedItems(r, children, |children|, depth, active), start, now);
    }
  }

  ghost predicate DictSoFar(
    r: Reader, metered: bool, pairs: seq<Json>, depth: nat, active: set<string>,
    entries: seq<Entry>, start: Meter, now: Meter)
  {
    && |entries| <= |pairs|
    && (forall i :: 0 <= i < |entries| ==>
          && IsPair(pairs[i]) && entries[i].key == PairKey(pairs[i])
          && Decode(r, PairChild(pairs[i]), depth, active) == Some(entries[i].value))
    && Paid(r.table, metered, LoadedPairs(r, pairs, |entries|, depth, active), start, now)
  }

  lemma DictStart(r: Reader, metered: bool, pairs: seq<Json>, depth: nat, active: set<string>, now: Meter)
    ensures DictSoFar(r, metered, pairs, depth, active, [], now, now)
  {
    hide Decode;
    assert LoadedPairs(r, pairs, 0, depth, active) == {};
  }

  lemma DictStep(
    r: Reader, metered: bool, pairs: seq<Json>, depth: nat, active: set<string>,
    entries: seq<Entry>, v: Json, start: Meter, now: Meter, next: Meter)
    requires DictSoFar(r, metered, pairs, depth, active, entries, start, now)
    requires |entries| < |pairs| && IsPair(pairs[|entries|])
    requires var child := PairChild(pairs[|entries|]);
             Outcome(r.table, metered, Decode(r, child, depth, active), Loaded(r, child, depth, active),
                     Some(v), now, next)
    ensures DictSoFar(r, metered, pairs, depth, active,
                      entries + [Entry(PairKey(pairs[|entries|]), v)], start, next)
  {
    hide Decode, Loaded, Paid;
    PaidTwice(r.table, metered, LoadedPairs(r, pairs, |entries|, depth, active),
              Loaded(r, PairChild(pairs[|entries|]), depth, active), start, now, next);
  }

  lemma DictFails(
    r: Reader, metered: bool, pairs: seq<Json>, depth: nat, active: set<string>,
    entries: seq<Entry>, start: Meter, now: Meter, next: Meter)
    requires DictSoFar(r, metered, pairs, depth, active, entries, start, now)
    requires |entries| < |pairs| && IsPair(pairs[|entries|])
    requires var child := PairChild(pairs[|entries|]);
             Outcome(r.table, metered, Decode(r, child, depth, active), Loaded(r, child, depth, active),
                     None, now, next)
    ensures DecodePairs(r, pairs, 0, depth, active).Some? ==>
      Short(r.table, metered, LoadedPairs(r, pairs, |pairs|, depth, active), start)
  {
    hide Decode, Loaded, Paid, Short;
    var child := PairChild(pairs[|entries|]);
    if Decode(r, child, depth, active).None? {
      PairsNeedEach(r, pairs, 0, depth, active, |entries|);
    } else {
      LoadedPairsGrow(r, pairs, |entries| + 1, |pairs|, depth, active);
      ShortLater(r.table, metered, LoadedPairs(r, pairs, |entries|, depth, active),
                 Loaded(r, child, depth, active),
                 LoadedPairs(r, pairs, |pairs|, depth, active), start, now);
    }
  }

  lemma LoadedByView(r: Reader, node: Json, depth: nat, active: set<string>)
    ensures Look(node).NullView? || Look(node).ScalarView? ==> Loaded(r, node, depth, active) == {}
    ensures Look(node).ListView? ==>
      Loaded(r, node, depth, active)
      == LoadedItems(r, Look(node).children, |Look(node).children|, depth + 1, active)
    ensures Look(node).DictView? ==>
      Loaded(r, node, depth, active)
      == LoadedPairs(r, Look(node).pairs, |Look(node).pairs|, depth + 1, active)
  {
    hide Look, LoadedItems, LoadedPairs, Fetch;
  }

  // ---------------------------------------------------------------- references

  lemma GenuineSize(r: Reader, digest: string, body: Json, size: nat, expected: nat, depth: nat)
    requires Genuine(r, digest, body, size) && size != expected
    ensures Fetch(r, digest, expected, depth).None?
  {
    hide Measurable, NodeSize, Parse;
  }

  /** What a reference node means, in one step. */
  lemma ReferenceStep(r: Reader, node: Json, digest: string, size: nat, depth: nat, active: set<string>)
    requires Look(node) == RefView(digest, size)
    requires Measurable(node, depth, r.codec.maxDepth, r.codec.maximum)
    ensures !Follows(r, digest, size, active) || Fetch(r, digest, size, depth).None? ==>
      Decode(r, node, depth, active).None?
    ensures Follows(r, digest, size, active) && Fetch(r, digest, size, depth).Some? ==>
      var body := Fetch(r, digest, size, depth).value;
      && Decode(r, node, depth, active) == Decode(r, body, depth, active + {digest})
      && Loaded(r, node, depth, active) == {digest} + Loaded(r, body, depth, active + {digest})
  {
    assert NodeSize(node) == size by { ReferenceMeasures(node, digest, size); }
    if Follows(r, digest, size, active) && Fetch(r, digest, size, depth).Some? {
      DecodeReference(r, node, digest, size, depth, active);
      LoadedReference(r, node, digest, size, depth, active);
    } else {
      hide Look, Measurable, NodeSize, Fetch, Loaded;
    }
  }

  lemma LoadedReference(r: Reader, node: Json, digest: string, size: nat, depth: nat, active: set<string>)
    requires Look(node) == RefView(digest, size)
    requires Follows(r, digest, size, active) && Fetch(r, digest, size, depth).Some?
    ensures Loaded(r, node, depth, active)
         == {digest} + Loaded(r, Fetch(r, digest, size, depth).value, depth, active + {digest})
  {
    hide Look, Measurable, NodeSize, Fetch, Decode;
  }

  /** The outcome of following a reference whose body is at hand. */
  lemma ReferenceOutcome(
    r: Reader, metered: bool, node: Json, digest: string, size: nat, depth: nat, active: set<string>,
    body: Json, v: Option<Json>, start: Meter, now: Meter, next: Meter)
    requires Look(node) == RefView(digest, size) && Follows(r, digest, size, active)
    requires Measurable(node, depth, r.codec.maxDepth, r.codec.maximum)
    requires Genuine(r, digest, body, size) && Paid(r.table, metered, {digest}, start, now)
    requires Outcome(r.table, metered, Decode(r, body, depth, active + {digest}),
                     Loaded(r, body, depth, active + {digest}), v, now, next)
    ensures Outcome(r.table, metered, Decode(r, node, depth, active), Loaded(r, node, depth, active),
                    v, start, next)
  {
    hide Look, Follows, Measurable, Genuine, Paid, Decode, Loaded, Fetch, Short;
    ReferenceStep(r, node, digest, size, depth, active);
    CachedDecode(r, digest, body, size, depth, active + {digest});
    var expected, more := Decode(r, body, depth, active + {digest}), Loaded(r, body, depth, active + {digest});
    if Fetch(r, digest, size, depth).Some? {
      OutcomeAfter(r.table, metered, expected, digest, more, v, start, now, next);
    }
  }

  /** Paying for one object first. */
  lemma OutcomeAfter(
    table: Table, metered: bool, expected: Option<Json>, digest: string, more: set<string>, v: Option<Json>,
    start: Meter, now: Meter, next: Meter)
    requires Paid(table, metered, {digest}, start, now) && Outcome(table, metered, expected, more, v, now, next)
    ensures Outcome(table, metered, expected, {digest} + more, v, start, next)
  {
    hide Paid, Short;
    if v.Some? {
      PaidTwice(table, metered, {digest}, more, start, now, next);
    } else if expected.Some? {
      ShortLater(table, metered, {digest}, more, {digest} + more, start, now);
    }
  }

  lemma Refused(
    r: Reader, metered: bool, node: Json, digest: string, size: nat, depth: nat, active: set<string>,
    start: Meter, now: Meter)
    requires Look(node) == RefView(digest, size) && !Follows(r, digest, size, active)
    requires Measurable(node, depth, r.codec.maxDepth, r.codec.maximum)
    ensures Outcome(r.table, metered, Decode(r, node, depth, active), Loaded(r, node, depth, active),
                    None, start, now)
  {
    hide Look, Measurable, Decode, Loaded, Fetch, Short;
    ReferenceStep(r, node, digest, size, depth, active);
  }

  lemma Unfetched(
    r: Reader, metered: bool, node: Json, digest: string, size: nat, depth: nat, active: set<string>,
    start: Meter, now: Meter)
    requires Look(node) == RefView(digest, size) && Follows(r, digest, size, active)
    requires Measurable(node, depth, r.codec.maxDepth, r.codec.maximum)
    requires Fetch(r, digest, size, depth).Some? ==>
      metered && digest !in start.known && start.left < Bytes(r.table, digest)
    ensures Outcome(r.table, metered, Decode(r, node, depth, active), Loaded(r, node, depth, active),
                    None, start, now)
  {
    hide Look, Follows, Measurable, Decode, Loaded, Fetch, Short, Bytes;
    ReferenceStep(r, node, digest, size, depth, active);
    if Fetch(r, digest, size, depth).Some? {
      ShortNow(r.table, metered, digest, Loaded(r, node, depth, active), start);
    }
  }

  // ---------------------------------------------------------------- decoder

  class Decoder {
    const r: Reader
    const budget: ReadBudget?
    var active: set<string>
    var verified: map<string, (Json, nat)>

    constructor (r: Reader, budget: ReadBudget?)
      ensures this.r == r && this.budget == budget && active == {} && verified == map[]
    {
      this.r, this.budget := r, budget;
      active, verified := {}, map[];
    }

    ghost predicate Valid()
      reads this
    {
      forall d :: d in verified ==> Genuine(r, d, verified[d].0, verified[d].1)
    }

    /** The reading of the meter. */
    ghost function Now(): Meter
      reads this, budget
    {
      Meter(verified.Keys, if budget == null then 0 else budget.remaining)
    }

    /** The cached decoder returns exactly what the function does, unless a read budget
        runs out; then the objects still to be loaded cost more than was left. A success
        pays for each newly loaded object once. */
    method Run(node: Json, depth: nat) returns (v: Option<Json>)
      requires Valid()
      modifies this, budget
      ensures Valid() && active == old(active)
      ensures Outcome(r.table, budget != null, Decode(r, node, depth, active),
                      Loaded(r, node, depth, active), v, old(Now()), Now())
      decreases Room(r, active), node, 1
    {
      hide LogicalSize, Measurable, NodeSize, Fetch, Look, Utf8Size, Parse, LoadedItems, LoadedPairs, Genuine, DecodeItems,
           DecodePairs, Follows;
      var size := Measure(r.codec, node, depth);
      if size.None? || size.value > r.codec.maximum {
        return None;
      }
      LoadedByView(r, node, depth, active);
      hide Loaded;
      var view := Look(node);
      match view {
        case NullView => v := Some(JNull); assert {} - verified.Keys == {};
        case ScalarView(scalar) => v := Some(scalar); assert {} - verified.Keys == {};
        case RefView(digest, claimed) => v := Load(digest, claimed, depth, node);
        case ListView(_) => v := RunList(node, depth);
        case DictView(_) => v := RunDict(node, depth);
        case Invalid => v := None;
      }
    }

    method RunList(node: Json, depth: nat) returns (v: Option<Json>)
      requires Valid() && Look(node).ListView?
      requires Measurable(node, depth, r.codec.maxDepth, r.codec.maximum) && NodeSize(node) <= r.codec.maximum
      modifies this, budget
      ensures Valid() && active == old(active)
      ensures Outcome(r.table, budget != null, Decode(r, node, depth, active),
                      Loaded(r, node, depth, active), v, old(Now()), Now())
      decreases Room(r, active), node, 0
    {
      hide LogicalSize, Measurable, NodeSize, Decode, DecodeItems, Loaded, LoadedItems, Genuine, Paid, Short,
           ListSoFar;
      var children := Look(node).children;
      DecodeContainer(r, node, depth, active);
      LoadedByView(r, node, depth, active);
      ListStart(r, budget != null, children, depth + 1, active, Now());
      var items: seq<Json> := [];
      while |items| < |children|
        invariant |items| <= |children|
        invariant Valid() && active == old(active)
        invariant ListSoFar(r, budget != null, children, depth + 1, active, items, old(Now()), Now())
      {
        ghost var now := Now();
        var child := Run(children[|items|], depth + 1);
        if child.None? {
          ListFails(r, budget != null, children, depth + 1, active, items, old(Now()), now, Now());
          return None;
        }
        ListStep(r, budget != null, children, depth + 1, active, items, child.value, old(Now()), now, Now());
        items := items + [child.value];
      }
      ListDone(r, budget != null, children, depth + 1, active, items, old(Now()), Now());
      return Some(JList(items));
    }

    method RunDict(node: Json, depth: nat) returns (v: Option<Json>)
      requires Valid() && Look(node).DictView?
      requires Measurable(node, depth, r.codec.maxDepth, r.codec.maximum) && NodeSize(node) <= r.codec.maximum
      modifies this, budget
      ensures Valid() && active == old(active)
      ensures Outcome(r.table, budget != null, Decode(r, node, depth, active),
                      Loaded(r, node, depth, active), v, old(Now()), Now())
      decreases Room(r, active), node, 0
    {
      MeasurableInOrder(r, node, depth);
      hide LogicalSize, Measurable, NodeSize, Decode, DecodePairs, Loaded, LoadedPairs, Genuine, Paid, Short,
           DictSoFar, StringLess;
      var pairs := Look(node).pairs;
      DecodeContainer(r, node, depth, active);
      LoadedByView(r, node, depth, active);
      DictStart(r, budget != null, pairs, depth + 1, active, Now());
      var entries: seq<Entry> := [];
      while |entries| < |pairs|
        invariant |entries| <= |pairs|
        invariant Valid() && active == old(active)
        invariant DictSoFar(r, budget != null, pairs, depth + 1, active, entries, old(Now()), Now())
      {
        ghost var now := Now();
        var pair := pairs[|entries|];
        var child := Run(PairChild(pair), depth + 1);
        if child.None? {
          DictFails(r, budget != null, pairs, depth + 1, active, entries, old(Now()), now, Now());
          return None;
        }
        DictStep(r, budget != null, pairs, depth + 1, active, entries, child.value, old(Now()), now, Now());
        entries := entries + [Entry(PairKey(pair), child.value)];
      }
      DictDone(r, budget != null, pairs, depth + 1, active, entries, old(Now()), Now());
      return Some(JDict(entries));
    }

    /** Follow one reference, through the cache when the object was verified before. */
    method Load(digest: string, expected: nat, depth: nat, ghost node: Json) returns (v: Option<Json>)
      requires Valid() && Look(node) == RefView(digest, expected)
      requires Measurable(node, depth, r.codec.maxDepth, r.codec.maximum)
      modifies this, budget
      ensures Valid() && active == old(active)
      ensures Outcome(r.table, budget != null, Decode(r, node, depth, active),
                      Loaded(r, node, depth, active), v, old(Now()), Now())
      decreases Room(r, active), node, 0
    {
      hide LogicalSize, Measurable, NodeSize, Genuine, Fetch, Look, Decode, Loaded, Paid, Short, Room, Outcome;
      if expected > r.codec.maximum || digest in active || |active| >= r.codec.maxDepth {
        Refused(r, budget != null, node, digest, expected, depth, active, Now(), Now());
        return None;
      }
      FollowedHasLessRoom(r, digest, expected, active);
      ghost var start := Now();
      var body := Body(digest, expected, depth);
      ghost var now := Now();
      if body.None? {
        Unfetched(r, budget != null, node, digest, expected, depth, active, start, now);
        return None;
      }
      active := active + {digest};
      v := Run(body.value, depth);
      active := active - {digest};
      assert active == old(active);
      ReferenceOutcome(r, budget != null, node, digest, expected, depth, active, body.value, v, start, now, Now());
    }

    /** The verified body of an object, from the cache or by a first load. */
    method Body(digest: string, expected: nat, depth: nat) returns (body: Option<Json>)
      requires Valid()
      modifies this`verified, budget
      ensures Valid()
      ensures body.Some? ==>
        && Genuine(r, digest, body.value, expected)
        && Paid(r.table, budget != null, {digest}, old(Now()), Now())
      ensures body.None? && Fetch(r, digest, expected, depth).Some? ==>
        && budget != null && digest !in old(Now().known)
        && old(Now().left) < Bytes(r.table, digest)
    {
      hide LogicalSize, Measurable, NodeSize, Genuine, Parse, Fetch, Bytes, Cost, Paid;
      ghost var start := Now();
      if digest in verified {
        if verified[digest].1 != expected {
          GenuineSize(r, digest, verified[digest].0, verified[digest].1, expected, depth);
          return None;
        }
        body := Some(verified[digest].0);
      } else {
        body := FirstLoad(digest, expected, depth);
        if body.None? {
          return None;
        }
      }
      PaidOne(r.table, budget != null, digest, start, Now());
    }

    /** The first load of an object: every check, one charge for its bytes, one cache entry. */
    method FirstLoad(digest: string, expected: nat, depth: nat) returns (body: Option<Json>)
      requires Valid() && digest !in verified
      modifies this`verified, budget
      ensures Valid()
      ensures body.Some? ==>
        && verified == old(verified)[digest := (body.value, expected)]
        && Genuine(r, digest, body.value, expected)
        && (budget != null ==> Now().left + Bytes(r.table, digest) == old(Now().left))
      ensures body.None? && Fetch(r, digest, expected, depth).Some? ==>
        budget != null && old(Now().left) < Bytes(r.table, digest)
    {
      hide LogicalSize, Measurable, NodeSize, Strict, Canonical;
      if digest !in r.table {
        return None;
      }
      var row := r.table[digest];
      if row.size < 0 || row.size != expected {
        return None;
      }
      var bytes := Utf8Size(row.encoded);
      if bytes > r.codec.encodedLimit {
        return None;
      }
      if budget != null {
        var paid := budget.Consume(bytes);
        if !paid {
          return None;
        }
      }
      var node := Parse(r, row.encoded);
      if node.None? || r.codec.digest(row.encoded) != digest {
        return None;
      }
      var measured := Measure(r.codec, node.value, depth);
      if measured.None? || measured.value != row.size {
        return None;
      }
      verified := verified[digest := (node.value, expected)];
      return node;
    }
  }

  lemma ListDone(
    r: Reader, metered: bool, children: seq<Json>, depth: nat, active: set<string>,
    items: seq<Json>, start: Meter, now: Meter)
    requires ListSoFar(r, metered, children, depth, active, items, start, now) && |items| == |children|
    ensures DecodeItems(r, children, 0, depth, active) == Some(items)
    ensures Paid(r.table, metered, LoadedItems(r, children, |children|, depth, active), start, now)
  {
    hide Decode, Paid;
    ItemsFromEach(r, children, 0, depth, active, items);
    assert items[0..] == items;
  }

  lemma DictDone(
    r: Reader, metered: bool, pairs: seq<Json>, depth: nat, active: set<string>,
    entries: seq<Entry>, start: Meter, now: Meter)
    requires DictSoFar(r, metered, pairs, depth, active, entries, start, now) && |entries| == |pairs|
    ensures DecodePairs(r, pairs, 0, depth, active) == Some(entries)
    ensures Paid(r.table, metered, LoadedPairs(r, pairs, |pairs|, depth, active), start, now)
  {
    hide Decode, Paid;
    PairsFromEach(r, pairs, 0, depth, active, entries);
    assert entries[0..] == entries;
  }
}
