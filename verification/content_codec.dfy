/** The codec of content.py as it runs: an encoder that fills an object dictionary, a
    decoder that caches verified objects and spends a read budget, and the two entry
    points over a mutable object table. */
module ContentCodec {
  import opened StrictJson
  import opened TypedNode
  import opened ContentEncoding
  import opened ContentDecoding

  const CONTENT_PREFIX := "sdk-content-v1:"

  /** Small logical budgets also impose a small physical budget. */
  function EncodedLimit(maximum: nat, requested: nat): nat
  {
    var derived := Max(4096, maximum * 128 + 1024);
    if derived < requested then derived else requested
  }

  /** Measure UTF-8 in chunks of 64 Ki characters, giving up once past the limit. */
  method Utf8SizeWithLimit(value: string, limit: nat) returns (size: nat)
    ensures Utf8Size(value) <= limit ==> size == Utf8Size(value)
    ensures Utf8Size(value) > limit ==> size > limit
  {
    if |value| > limit {
      Utf8SizeAtLeastLength(value);
      return limit + 1;
    }
    size := 0;
    var offset := 0;
    while offset < |value|
      invariant 0 <= offset
      invariant size + (if offset < |value| then Utf8Size(value[offset..]) else 0) == Utf8Size(value)
      invariant size <= limit
    {
      var end := if offset + 65536 < |value| then offset + 65536 else |value|;
      assert value[offset..] == value[offset..end] + value[end..];
      Utf8SizeConcat(value[offset..end], value[end..]);
      size := size + Utf8Size(value[offset..end]);
      if size > limit {
        return;
      }
      offset := offset + 65536;
    }
  }

  // ---------------------------------------------------------------- encoder

  lemma EncodableByParts(c: Codec, v: Json, depth: nat)
    requires Ordered(v)
    ensures v.JList? ==>
      (Encodable(c, v, depth) <==>
        && depth <= c.maxDepth && LogicalSize(v) <= c.maximum
        && (forall i :: 0 <= i < |v.items| ==> Encodable(c, v.items[i], depth + 1))
        && (Spills(c, v, depth) ==> Utf8Size(Own(c, v, depth).encoded) <= c.encodedLimit))
    ensures v.JDict? ==>
      (Encodable(c, v, depth) <==>
        && depth <= c.maxDepth && LogicalSize(v) <= c.maximum
        && (forall i :: 0 <= i < |v.entries| ==> Encodable(c, v.entries[i].value, depth + 1))
        && (Spills(c, v, depth) ==> Utf8Size(Own(c, v, depth).encoded) <= c.encodedLimit))
    ensures !v.JList? && !v.JDict? ==>
      (Encodable(c, v, depth) <==>
        && depth <= c.maxDepth && LogicalSize(v) <= c.maximum && !v.JOther?
        && (Spills(c, v, depth) ==> Utf8Size(Own(c, v, depth).encoded) <= c.encodedLimit))
  {
    hide LogicalSize, Own, Spills, Objects;
    FitsSplit(c, v, depth);
    if Encodable(c, v, depth) {
      EncodableParts(c, v, depth);
    }
    if v.JList? {
      if depth <= c.maxDepth && forall i :: 0 <= i < |v.items| ==> Encodable(c, v.items[i], depth + 1) {
        ItemsNestingAtMost(v.items, 0, c.maxDepth - depth);
        ItemsFit(c, v.items, |v.items|, depth + 1);
      }
    } else if v.JDict? {
      if depth <= c.maxDepth
         && forall i :: 0 <= i < |v.entries| ==> Encodable(c, v.entries[i].value, depth + 1) {
        EntriesNestingAtMost(v.entries, 0, c.maxDepth - depth);
        EntriesFit(c, v.entries, |v.entries|, depth + 1);
      }
    }
  }

  lemma FitsSplit(c: Codec, v: Json, depth: nat)
    ensures Fits(c, Objects(c, v, depth)) <==>
      && Fits(c, InnerObjects(c, v, depth))
      && (Spills(c, v, depth) ==> Utf8Size(Own(c, v, depth).encoded) <= c.encodedLimit)
  {
    hide Own, InnerObjects, Spills;
    if Spills(c, v, depth) {
      assert Own(c, v, depth) in Objects(c, v, depth);
    }
    if Fits(c, Objects(c, v, depth)) {
      forall o | o in InnerObjects(c, v, depth) ensures Utf8Size(o.encoded) <= c.encodedLimit {
        assert o in Objects(c, v, depth);
      }
    }
  }

  lemma {:induction false} ItemsFit(c: Codec, items: seq<Json>, n: nat, depth: nat)
    requires n <= |items|
    requires forall i :: 0 <= i < n ==> Fits(c, Objects(c, items[i], depth))
    ensures Fits(c, ItemsObjects(c, items, n, depth))
  {
    hide Objects;
    if n > 0 {
      ItemsFit(c, items, n - 1, depth);
    }
  }

  lemma {:induction false} EntriesFit(c: Codec, entries: seq<Entry>, n: nat, depth: nat)
    requires n <= |entries|
    requires forall i :: 0 <= i < n ==> Fits(c, Objects(c, entries[i].value, depth))
    ensures Fits(c, EntriesObjects(c, entries, n, depth))
  {
    hide Objects;
    if n > 0 {
      EntriesFit(c, entries, n - 1, depth);
    }
  }

  lemma AgreeSubset(m: Pending, part: set<Object>, whole: set<Object>)
    requires part <= whole && Agree(m, whole)
    ensures Agree(m, part)
  {
  }

  lemma NothingAdded(m: Pending, c: Codec, v: Json)
    ensures Added(m, {}, m)
    ensures v.JList? ==> forall depth :: ItemsObjects(c, v.items, 0, depth) == {}
    ensures v.JDict? ==> forall depth :: EntriesObjects(c, v.entries, 0, depth) == {}
  {
  }

  lemma OwnAdded(start: Pending, below: set<Object>, before: Pending, own: Object, after: Pending)
    requires Added(start, below, before) && after == before[own.digest := (own.encoded, own.size)]
    requires own.digest in before ==> Holds(before, own)
    ensures Added(start, below + {own}, after)
  {
    assert Added(before, {own}, after) by {
      assert own in {own};
      assert forall d :: d in after && d !in before ==> d == own.digest;
    }
    AddedTwice(start, below, before, {own}, after);
  }

  lemma OwnRefused(start: Pending, below: set<Object>, before: Pending, own: Object)
    requires Added(start, below, before) && own.digest in before && !Holds(before, own)
    ensures !Agree(start, below + {own})
  {
    assert own in {own};
    DisagreementSpreads(start, below, before, {own});
  }

  lemma ItemsAdded(start: Pending, c: Codec, items: seq<Json>, k: nat, depth: nat, before: Pending, after: Pending)
    requires k < |items| && Added(start, ItemsObjects(c, items, k, depth), before)
    requires Added(before, Objects(c, items[k], depth), after)
    ensures Added(start, ItemsObjects(c, items, k + 1, depth), after)
  {
    hide Objects, Added, Agree;
    AddedTwice(start, ItemsObjects(c, items, k, depth), before, Objects(c, items[k], depth), after);
  }

  lemma ItemsRefused(start: Pending, c: Codec, items: seq<Json>, k: nat, depth: nat, before: Pending)
    requires k < |items| && Added(start, ItemsObjects(c, items, k, depth), before)
    requires !Agree(before, Objects(c, items[k], depth))
    ensures !Agree(start, ItemsObjects(c, items, |items|, depth))
  {
    hide Objects, Added, Agree;
    DisagreementSpreads(start, ItemsObjects(c, items, k, depth), before, Objects(c, items[k], depth));
    ItemsObjectsGrow(c, items, k + 1, |items|, depth);
    if Agree(start, ItemsObjects(c, items, |items|, depth)) {
      AgreeSubset(start, ItemsObjects(c, items, k + 1, depth), ItemsObjects(c, items, |items|, depth));
    }
  }

  lemma EntriesAdded(
    start: Pending, c: Codec, entries: seq<Entry>, k: nat, depth: nat, before: Pending, after: Pending)
    requires k < |entries| && Added(start, EntriesObjects(c, entries, k, depth), before)
    requires Added(before, Objects(c, entries[k].value, depth), after)
    ensures Added(start, EntriesObjects(c, entries, k + 1, depth), after)
  {
    hide Objects, Added, Agree;
    AddedTwice(start, EntriesObjects(c, entries, k, depth), before,
               Objects(c, entries[k].value, depth), after);
  }

  lemma EntriesRefused(start: Pending, c: Codec, entries: seq<Entry>, k: nat, depth: nat, before: Pending)
    requires k < |entries| && Added(start, EntriesObjects(c, entries, k, depth), before)
    requires !Agree(before, Objects(c, entries[k].value, depth))
    ensures !Agree(start, EntriesObjects(c, entries, |entries|, depth))
  {
    hide Objects, Added, Agree;
    DisagreementSpreads(start, EntriesObjects(c, entries, k, depth), before,
                        Objects(c, entries[k].value, depth));
    EntriesObjectsGrow(c, entries, k + 1, |entries|, depth);
    if Agree(start, EntriesObjects(c, entries, |entries|, depth)) {
      AgreeSubset(start, EntriesObjects(c, entries, k + 1, depth), EntriesObjects(c, entries, |entries|, depth));
    }
  }

  class Encoder {
    const c: Codec
    var objects: Pending

    constructor (c: Codec)
      ensures this.c == c && objects == map[]
    {
      this.c := c;
      objects := map[];
    }

    /** The node of a value and its logical length; every large node below it becomes a
        pending object. It fails exactly when the value is not encodable at this depth or
        two different contents claim one digest. */
    method Build(v: Json, depth: nat) returns (r: Option<(Json, nat)>)
      requires Ordered(v)
      modifies this
      ensures r.Some? <==> Encodable(c, v, depth) && Agree(old(objects), Objects(c, v, depth))
      ensures r.Some? ==> r.value == (Node(c, v, depth), LogicalSize(v))
      ensures r.Some? ==> Added(old(objects), Objects(c, v, depth), objects)
      decreases v, 1
    {
      EncodableByParts(c, v, depth);
      if depth > c.maxDepth {
        return None;
      }
      var node, size;
      match v {
        case JNull =>
          NullFacts();
          node, size := NullNode(), 4;
        case JBool(flag) =>
          BoolSize(flag);
          node, size := ScalarNode("bool", v), if flag then 4 else 5;
        case JInt(_) => node, size := ScalarNode("int", v), Utf8Size(Canonical(v));
        case JFloat(_) => node, size := ScalarNode("float", v), Utf8Size(Canonical(v));
        case JString(_) => node, size := ScalarNode("string", v), Utf8Size(Canonical(v));
        case JList(_) =>
          var built := BuildList(v, depth);
          if built.None? {
            PartDisagrees(c, v, depth, old(objects));
            return None;
          }
          node, size := built.value.0, built.value.1;
        case JDict(_) =>
          var built := BuildDict(v, depth);
          if built.None? {
            PartDisagrees(c, v, depth, old(objects));
            return None;
          }
          node, size := built.value.0, built.value.1;
        case JOther => return None;
      }
      assert node == Inline(c, v, depth) && size == LogicalSize(v);
      assert Added(old(objects), InnerObjects(c, v, depth), objects);
      if size > c.maximum {
        return None;
      }
      r := Spill(v, depth, node, size, old(objects));
    }

    /** The last step of Build: store the node apart if it is large and not deepest. */
    method Spill(v: Json, depth: nat, node: Json, size: nat, ghost start: Pending)
      returns (r: Option<(Json, nat)>)
      requires node == Inline(c, v, depth) && size == LogicalSize(v)
      requires Added(start, InnerObjects(c, v, depth), objects)
      modifies this
      ensures r.Some? <==>
        && (Spills(c, v, depth) ==> Utf8Size(Own(c, v, depth).encoded) <= c.encodedLimit)
        && Agree(start, Objects(c, v, depth))
      ensures r.Some? ==> r.value == (Node(c, v, depth), LogicalSize(v))
      ensures r.Some? ==> Added(start, Objects(c, v, depth), objects)
    {
      hide LogicalSize, Canonical, Inline, InnerObjects, Agree, Utf8Size, Added;
      if size >= c.threshold && depth < c.maxDepth {
        ghost var own := Own(c, v, depth);
        var encoded := Canonical(node);
        var bytes := Utf8SizeWithLimit(encoded, c.encodedLimit);
        if bytes > c.encodedLimit {
          return None;
        }
        var digest := c.digest(encoded);
        if digest in objects && objects[digest] != (encoded, size) {
          OwnRefused(start, InnerObjects(c, v, depth), objects, own);
          return None;
        }
        ghost var before := objects;
        objects := objects[digest := (encoded, size)];
        OwnAdded(start, InnerObjects(c, v, depth), before, own, objects);
        AddedAgrees(start, Objects(c, v, depth), objects);
        return Some((RefNode(digest, size), size));
      }
      assert Objects(c, v, depth) == InnerObjects(c, v, depth);
      AddedAgrees(start, InnerObjects(c, v, depth), objects);
      return Some((node, size));
    }

    method BuildList(v: Json, depth: nat) returns (r: Option<(Json, nat)>)
      requires Ordered(v) && v.JList?
      modifies this
      ensures r.Some? <==>
        && (forall i :: 0 <= i < |v.items| ==> Encodable(c, v.items[i], depth + 1))
        && (|v.items| > 0 ==> LogicalSize(v) <= c.maximum)
        && Agree(old(objects), InnerObjects(c, v, depth))
      ensures r.Some? ==> r.value == (Inline(c, v, depth), LogicalSize(v))
      ensures r.Some? ==> Added(old(objects), InnerObjects(c, v, depth), objects)
      decreases v, 0
    {
      hide LogicalSize, Objects, Node, Encodable, InnerObjects, Added, Agree, ItemsObjects, Inline;
      var items := v.items;
      InnerOfList(c, v, depth);
      NothingAdded(objects, c, v);
      ContainerSize(v);
      var children: seq<Json>, size := [], 2;
      var index := 0;
      while index < |items|
        invariant 0 <= index <= |items| && |children| == index
        invariant forall i :: 0 <= i < index ==> children[i] == Node(c, items[i], depth + 1)
        invariant forall i :: 0 <= i < index ==> Encodable(c, items[i], depth + 1)
        invariant size + ItemsSize(items, index) == LogicalSize(v)
        invariant index > 0 ==> size <= c.maximum
        invariant Added(old(objects), ItemsObjects(c, items, index, depth + 1), objects)
      {
        ghost var before := objects;
        var child := Build(items[index], depth + 1);
        if child.None? {
          if Encodable(c, items[index], depth + 1) {
            ItemsRefused(old(objects), c, items, index, depth + 1, before);
          }
          return None;
        }
        ItemsAdded(old(objects), c, items, index, depth + 1, before, objects);
        children := children + [child.value.0];
        size := size + child.value.1 + (if index > 0 then 1 else 0);
        if size > c.maximum {
          return None;
        }
        index := index + 1;
      }
      AddedAgrees(old(objects), InnerObjects(c, v, depth), objects);
      InlineIsList(c, v, depth, children);
      return Some((ListNode(children), size));
    }

    method BuildDict(v: Json, depth: nat) returns (r: Option<(Json, nat)>)
      requires Ordered(v) && v.JDict?
      modifies this
      ensures DictOutcome(c, old(objects), v, depth, r, objects)
      decreases v, 0
    {
      hide LogicalSize, Objects, Node, Encodable, InnerObjects, StringText, Added, Agree, EntriesObjects, Inline,
           EntriesSize, Ordered, PairsBuilt, DictOutcome, PairNode, Separator, Utf8Size;
      EntriesOrdered(v);
      var entries := v.entries;
      InnerOfDict(c, v, depth);
      NothingAdded(objects, c, v);
      ContainerSize(v);
      var pairs: seq<Json>, size := [], 2;
      NoPairsBuilt(c, entries, depth);
      var index := 0;
      while index < |entries|
        invariant 0 <= index <= |entries| && PairsBuilt(c, entries, index, depth, pairs)
        invariant size + EntriesSize(entries, index) == LogicalSize(v)
        invariant index > 0 ==> size <= c.maximum
        invariant Added(old(objects), EntriesObjects(c, entries, index, depth + 1), objects)
      {
        ghost var before := objects;
        var key, value := entries[index].key, entries[index].value;
        var child := Build(value, depth + 1);
        if child.None? {
          if Encodable(c, value, depth + 1) {
            EntriesRefused(old(objects), c, entries, index, depth + 1, before);
          }
          DictRefused(c, old(objects), v, depth, objects);
          return None;
        }
        EntriesAdded(old(objects), c, entries, index, depth + 1, before, objects);
        EntryStep(entries, index);
        PairBuilt(c, entries, index, depth, pairs);
        pairs := pairs + [PairNode(key, child.value.0)];
        size := size + Utf8Size(StringText(key)) + 1 + child.value.1;
        size := size + (if index > 0 then 1 else 0);
        if size > c.maximum {
          DictRefused(c, old(objects), v, depth, objects);
          return None;
        }
        index := index + 1;
      }
      DictBuilt(c, old(objects), v, depth, pairs, objects);
      return Some((DictNode(pairs), size));
    }
  }

  /** What encoding the entries of a dict answers and adds. */
  ghost predicate DictOutcome(
    c: Codec, start: Pending, v: Json, depth: nat, r: Option<(Json, nat)>, now: Pending)
    requires v.JDict?
  {
    && (r.Some? <==>
          && (forall i :: 0 <= i < |v.entries| ==> Encodable(c, v.entries[i].value, depth + 1))
          && (|v.entries| > 0 ==> LogicalSize(v) <= c.maximum)
          && Agree(start, InnerObjects(c, v, depth)))
    && (r.Some? ==> r.value == (Inline(c, v, depth), LogicalSize(v)) && Added(start, InnerObjects(c, v, depth), now))
  }

  lemma DictRefused(c: Codec, start: Pending, v: Json, depth: nat, now: Pending)
    requires v.JDict?
    requires (exists i :: 0 <= i < |v.entries| && !Encodable(c, v.entries[i].value, depth + 1))
      || (|v.entries| > 0 && LogicalSize(v) > c.maximum)
      || !Agree(start, InnerObjects(c, v, depth))
    ensures DictOutcome(c, start, v, depth, None, now)
  {
    hide LogicalSize, Encodable, InnerObjects, Agree, Inline;
  }

  lemma DictBuilt(c: Codec, start: Pending, v: Json, depth: nat, pairs: seq<Json>, now: Pending)
    requires v.JDict? && PairsBuilt(c, v.entries, |v.entries|, depth, pairs)
    requires |v.entries| > 0 ==> LogicalSize(v) <= c.maximum
    requires Added(start, InnerObjects(c, v, depth), now)
    ensures DictOutcome(c, start, v, depth, Some((DictNode(pairs), LogicalSize(v))), now)
  {
    hide LogicalSize, Encodable, InnerObjects, Agree, Inline, Added, Node;
    AddedAgrees(start, InnerObjects(c, v, depth), now);
    InlineIsDict(c, v, depth, pairs);
  }

  lemma EntriesOrdered(v: Json)
    requires Ordered(v) && v.JDict?
    ensures forall i :: 0 <= i < |v.entries| ==> Ordered(v.entries[i].value)
    ensures EntriesSize(v.entries, |v.entries|) == 0
  {
  }

  /** The first `n` entries have been encoded as pairs. */
  predicate PairsBuilt(c: Codec, entries: seq<Entry>, n: nat, depth: nat, pairs: seq<Json>)
    requires n <= |entries|
  {
    && |pairs| == n
    && (forall i :: 0 <= i < n ==> pairs[i] == PairNode(entries[i].key, Node(c, entries[i].value, depth + 1)))
    && (forall i :: 0 <= i < n ==> Encodable(c, entries[i].value, depth + 1))
  }

  lemma NoPairsBuilt(c: Codec, entries: seq<Entry>, depth: nat)
    ensures PairsBuilt(c, entries, 0, depth, [])
  {
  }

  lemma PairBuilt(c: Codec, entries: seq<Entry>, n: nat, depth: nat, pairs: seq<Json>)
    requires n < |entries| && PairsBuilt(c, entries, n, depth, pairs) && Encodable(c, entries[n].value, depth + 1)
    ensures PairsBuilt(c, entries, n + 1, depth, pairs + [PairNode(entries[n].key, Node(c, entries[n].value, depth + 1))])
  {
    hide Node, Encodable;
  }

  lemma EntryStep(entries: seq<Entry>, k: nat)
    requires k < |entries|
    ensures EntriesSize(entries, k) == (if k > 0 then 1 else 0) + Utf8Size(StringText(entries[k].key)) + 1 + LogicalSize(entries[k].value)
      + EntriesSize(entries, k + 1)
  {
    hide LogicalSize, StringText;
  }

  lemma BoolSize(flag: bool)
    ensures LogicalSize(JBool(flag)) == if flag then 4 else 5
  {
    assert Utf8Size("true") == 4 && Utf8Size("false") == 5;
  }

  lemma PartDisagrees(c: Codec, v: Json, depth: nat, start: Pending)
    ensures !Agree(start, InnerObjects(c, v, depth)) ==> !Agree(start, Objects(c, v, depth))
  {
    hide Agree, InnerObjects, Own;
    if Agree(start, Objects(c, v, depth)) {
      AgreeSubset(start, InnerObjects(c, v, depth), Objects(c, v, depth));
    }
  }

  lemma InnerOfList(c: Codec, v: Json, depth: nat)
    requires v.JList?
    ensures InnerObjects(c, v, depth) == ItemsObjects(c, v.items, |v.items|, depth + 1)
  {
  }

  lemma InnerOfDict(c: Codec, v: Json, depth: nat)
    requires v.JDict?
    ensures InnerObjects(c, v, depth) == EntriesObjects(c, v.entries, |v.entries|, depth + 1)
  {
  }

  lemma {:induction false} ItemsObjectsGrow(c: Codec, items: seq<Json>, m: nat, n: nat, depth: nat)
    requires m <= n <= |items|
    ensures ItemsObjects(c, items, m, depth) <= ItemsObjects(c, items, n, depth)
    decreases n
  {
    hide Objects;
    if m < n {
      ItemsObjectsGrow(c, items, m, n - 1, depth);
    }
  }

  lemma {:induction false} EntriesObjectsGrow(c: Codec, entries: seq<Entry>, m: nat, n: nat, depth: nat)
    requires m <= n <= |entries|
    ensures EntriesObjects(c, entries, m, depth) <= EntriesObjects(c, entries, n, depth)
    decreases n
  {
    hide Objects;
    if m < n {
      EntriesObjectsGrow(c, entries, m, n - 1, depth);
    }
  }

  lemma InlineIsList(c: Codec, v: Json, depth: nat, children: seq<Json>)
    requires v.JList? && |children| == |v.items|
    requires forall i :: 0 <= i < |v.items| ==> children[i] == Node(c, v.items[i], depth + 1)
    ensures Inline(c, v, depth) == ListNode(children)
  {
    InlineList(c, v.items, depth);
    assert Look(Inline(c, v, depth)).children == children;
  }

  lemma InlineIsDict(c: Codec, v: Json, depth: nat, pairs: seq<Json>)
    requires v.JDict? && |pairs| == |v.entries|
    requires forall i :: 0 <= i < |v.entries| ==>
      pairs[i] == PairNode(v.entries[i].key, Node(c, v.entries[i].value, depth + 1))
    ensures Inline(c, v, depth) == DictNode(pairs)
  {
    InlineDict(c, v.entries, depth);
    assert Look(Inline(c, v, depth)).pairs == pairs;
  }
}
