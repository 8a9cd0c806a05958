/** What a successful decode has checked: every row that it loads is the content that its digest
    names, so two tables cannot give one text two meanings. */
module ContentIntegrity {
  import opened StrictJson
  import opened TypedNode
  import opened ContentDecoding

  // ---------------------------------------------------------------- what is loaded

  /** The row holds the canonical text of a node, hashes to its own key and carries the length
      that the node claims. */
  predicate SoundRow(r: Reader, d: string)
  {
    && d in r.table && r.codec.digest(r.table[d].encoded) == d
    && var node := r.loads(r.table[d].encoded);
       && node.Some? && Strict(node.value) && Canonical(node.value) == r.table[d].encoded
       && NodeSize(node.value) == r.table[d].size
  }

  lemma FetchedIsSound(r: Reader, d: string, expected: nat, depth: nat)
    requires Fetch(r, d, expected, depth).Some?
    ensures SoundRow(r, d) && r.loads(r.table[d].encoded) == Fetch(r, d, expected, depth)
  {
    hide Strict, Canonical, NodeSize, Measurable, Utf8Size;
  }

  /** Every row that decoding loads is sound. */
  lemma {:induction false} LoadedIsSound(r: Reader, node: Json, depth: nat, active: set<string>)
    ensures forall d :: d in Loaded(r, node, depth, active) ==> SoundRow(r, d)
    decreases Room(r, active), node, 1
  {
    hide SoundRow, Fetch, Look, LoadedItems, LoadedPairs, Loaded, Follows, Room;
    LoadedByView(r, node, depth, active);
    match Look(node)
    case RefView(digest, size) =>
      if Follows(r, digest, size, active) && Fetch(r, digest, size, depth).Some? {
        FetchedIsSound(r, digest, size, depth);
        FollowedHasLessRoom(r, digest, size, active);
        LoadedIsSound(r, Fetch(r, digest, size, depth).value, depth, active + {digest});
      }
    case ListView(children) => ListIsSound(r, node, children, depth, active);
    case DictView(pairs) => DictIsSound(r, node, pairs, depth, active);
    case _ =>
  }

  lemma LoadedByView(r: Reader, node: Json, depth: nat, active: set<string>)
    ensures var view := Look(node);
            && (view.RefView? && Follows(r, view.digest, view.size, active) && Fetch(r, view.digest, view.size, depth).Some? ==>
                  forall d :: d in Loaded(r, node, depth, active) ==>
                    d == view.digest
                    || d in Loaded(r, Fetch(r, view.digest, view.size, depth).value, depth, active + {view.digest}))
            && (view.RefView? && !(Follows(r, view.digest, view.size, active) && Fetch(r, view.digest, view.size, depth).Some?) ==>
                  Loaded(r, node, depth, active) == {})
            && (view.ListView? ==>
                  Loaded(r, node, depth, active) == LoadedItems(r, view.children, |view.children|, depth + 1, active))
            && (view.DictView? ==>
                  Loaded(r, node, depth, active) == LoadedPairs(r, view.pairs, |view.pairs|, depth + 1, active))
            && (view.NullView? || view.ScalarView? || view.Invalid? ==> Loaded(r, node, depth, active) == {})
  {
    hide Look, Fetch, LoadedItems, LoadedPairs;
  }

  lemma {:induction false} ListIsSound(r: Reader, node: Json, children: seq<Json>, depth: nat, active: set<string>)
    requires Look(node) == ListView(children)
    ensures forall d :: d in LoadedItems(r, children, |children|, depth + 1, active) ==> SoundRow(r, d)
    decreases Room(r, active), node, 0
  {
    hide SoundRow, Look, LoadedItems, Room;
    ItemsAreSound(r, children, |children|, depth + 1, active);
  }

  lemma {:induction false} DictIsSound(r: Reader, node: Json, pairs: seq<Json>, depth: nat, active: set<string>)
    requires Look(node) == DictView(pairs)
    ensures forall d :: d in LoadedPairs(r, pairs, |pairs|, depth + 1, active) ==> SoundRow(r, d)
    decreases Room(r, active), node, 0
  {
    hide SoundRow, Look, LoadedPairs, Room;
    PairsAreSound(r, pairs, |pairs|, depth + 1, active);
  }

  lemma {:induction false} ItemsAreSound(r: Reader, children: seq<Json>, n: nat, depth: nat, active: set<string>)
    requires n <= |children|
    ensures forall d :: d in LoadedItems(r, children, n, depth, active) ==> SoundRow(r, d)
    decreases Room(r, active), children, n
  {
    hide SoundRow, Loaded;
    if n > 0 {
      ItemsAreSound(r, children, n - 1, depth, active);
      LoadedIsSound(r, children[n - 1], depth, active);
    }
  }

  lemma {:induction false} PairsAreSound(r: Reader, pairs: seq<Json>, n: nat, depth: nat, active: set<string>)
    requires n <= |pairs|
    ensures forall d :: d in LoadedPairs(r, pairs, n, depth, active) ==> SoundRow(r, d)
    decreases Room(r, active), pairs, n
  {
    hide SoundRow, Loaded;
    if n > 0 {
      PairsAreSound(r, pairs, n - 1, depth, active);
      if IsPair(pairs[n - 1]) { LoadedIsSound(r, PairChild(pairs[n - 1]), depth, active); }
    }
  }

  // ---------------------------------------------------------------- one meaning

  /** Two readers with the same parser and hash, and no two different texts in their tables that
      hash alike. Their limits may differ. */
  ghost predicate Comparable(r: Reader, q: Reader)
  {
    && r.loads == q.loads && r.codec.digest == q.codec.digest
    && forall d, e :: d in r.table && e in q.table && r.codec.digest(r.table[d].encoded) == r.codec.digest(q.table[e].encoded) ==>
         r.table[d].encoded == q.table[e].encoded
  }

  /** Both load the same body, whatever sizes they expected. */
  lemma SameBody(r: Reader, q: Reader, d: string, m: nat, n: nat, depth: nat, level: nat)
    requires Comparable(r, q) && Fetch(r, d, m, depth).Some? && Fetch(q, d, n, level).Some?
    ensures Fetch(r, d, m, depth) == Fetch(q, d, n, level)
  {
    FetchedIsSound(r, d, m, depth);
    FetchedIsSound(q, d, n, level);
    hide Fetch, Strict, Canonical, NodeSize;
  }

  /** Where both give a node a meaning, it is the same one. */
  lemma {:induction false} OneValue(
    r: Reader, q: Reader, node: Json, depth: nat, active: set<string>, level: nat, open: set<string>)
    requires Comparable(r, q) && Decode(r, node, depth, active).Some? && Decode(q, node, level, open).Some?
    ensures Decode(r, node, depth, active) == Decode(q, node, level, open)
    decreases Room(r, active), node, 1
  {
    hide *;
    match Look(node)
    case RefView(_, _) => OneReference(r, q, node, depth, active, level, open);
    case ListView(_) => OneList(r, q, node, depth, active, level, open);
    case DictView(_) => OneDict(r, q, node, depth, active, level, open);
    case _ =>
      DecodedByView(r, node, depth, active);
      DecodedByView(q, node, level, open);
  }

  lemma {:induction false} OneReference(
    r: Reader, q: Reader, node: Json, depth: nat, active: set<string>, level: nat, open: set<string>)
    requires Comparable(r, q) && Look(node).RefView? && Decode(r, node, depth, active).Some? && Decode(q, node, level, open).Some?
    ensures Decode(r, node, depth, active) == Decode(q, node, level, open)
    decreases Room(r, active), node, 0
  {
    hide *;
    var d, size := Look(node).digest, Look(node).size;
    var body := Followed(r, node, d, size, depth, active);
    var other := Followed(q, node, d, size, level, open);
    SameBody(r, q, d, size, size, depth, level);
    OneValue(r, q, body, depth, active + {d}, level, open + {d});
  }

  /** A reference means what the body behind it means. */
  lemma Followed(r: Reader, node: Json, d: string, size: nat, depth: nat, active: set<string>) returns (body: Json)
    requires Look(node) == RefView(d, size) && Decode(r, node, depth, active).Some?
    ensures Fetch(r, d, size, depth) == Some(body) && Room(r, active + {d}) < Room(r, active)
    ensures Decode(r, node, depth, active) == Decode(r, body, depth, active + {d})
  {
    DecodedByView(r, node, depth, active);
    hide *;
    body := Fetch(r, d, size, depth).value;
  }

  lemma {:induction false} OneList(
    r: Reader, q: Reader, node: Json, depth: nat, active: set<string>, level: nat, open: set<string>)
    requires Comparable(r, q) && Look(node).ListView? && Decode(r, node, depth, active).Some? && Decode(q, node, level, open).Some?
    ensures Decode(r, node, depth, active) == Decode(q, node, level, open)
    decreases Room(r, active), node, 0
  {
    hide Comparable, Look, Measurable, NodeSize, Fetch, Decode, DecodeItems, DecodePairs, Follows, Room;
    DecodedByView(r, node, depth, active);
    DecodedByView(q, node, level, open);
    OneItems(r, q, Look(node).children, 0, depth + 1, active, level + 1, open);
  }

  lemma {:induction false} OneDict(
    r: Reader, q: Reader, node: Json, depth: nat, active: set<string>, level: nat, open: set<string>)
    requires Comparable(r, q) && Look(node).DictView? && Decode(r, node, depth, active).Some? && Decode(q, node, level, open).Some?
    ensures Decode(r, node, depth, active) == Decode(q, node, level, open)
    decreases Room(r, active), node, 0
  {
    hide Comparable, Look, Measurable, NodeSize, Fetch, Decode, DecodeItems, DecodePairs, Follows, Room;
    DecodedByView(r, node, depth, active);
    DecodedByView(q, node, level, open);
    OnePairs(r, q, Look(node).pairs, 0, depth + 1, active, level + 1, open);
  }

  lemma {:induction false} OneItems(
    r: Reader, q: Reader, children: seq<Json>, k: nat, depth: nat, active: set<string>, level: nat, open: set<string>)
    requires Comparable(r, q) && k <= |children|
    requires DecodeItems(r, children, k, depth, active).Some? && DecodeItems(q, children, k, level, open).Some?
    ensures DecodeItems(r, children, k, depth, active) == DecodeItems(q, children, k, level, open)
    decreases Room(r, active), children, |children| - k
  {
    hide Comparable, Decode;
    if k < |children| {
      OneValue(r, q, children[k], depth, active, level, open);
      OneItems(r, q, children, k + 1, depth, active, level, open);
    }
  }

  lemma {:induction false} OnePairs(
    r: Reader, q: Reader, pairs: seq<Json>, k: nat, depth: nat, active: set<string>, level: nat, open: set<string>)
    requires Comparable(r, q) && k <= |pairs|
    requires DecodePairs(r, pairs, k, depth, active).Some? && DecodePairs(q, pairs, k, level, open).Some?
    ensures DecodePairs(r, pairs, k, depth, active) == DecodePairs(q, pairs, k, level, open)
    decreases Room(r, active), pairs, |pairs| - k
  {
    hide Comparable, Decode;
    if k < |pairs| {
      OneValue(r, q, PairChild(pairs[k]), depth, active, level, open);
      OnePairs(r, q, pairs, k + 1, depth, active, level, open);
    }
  }

  // ---------------------------------------------------------------- how deep a value can be

  /** A decoded value nests no deeper than the depth limit leaves room for. */
  lemma {:induction false} DecodedNesting(r: Reader, node: Json, depth: nat, active: set<string>)
    requires Decode(r, node, depth, active).Some?
    ensures depth + Nesting(Decode(r, node, depth, active).value) <= r.codec.maxDepth
    decreases Room(r, active), node, 1
  {
    hide *;
    match Look(node)
    case RefView(d, size) =>
      var body := Followed(r, node, d, size, depth, active);
      DecodedNesting(r, body, depth, active + {d});
    case ListView(children) => ListNesting(r, node, children, depth, active);
    case DictView(pairs) => DictNesting(r, node, pairs, depth, active);
    case _ => LeafNesting(r, node, depth, active);
  }

  lemma LeafNesting(r: Reader, node: Json, depth: nat, active: set<string>)
    requires Decode(r, node, depth, active).Some? && !Look(node).RefView? && !Look(node).ListView? && !Look(node).DictView?
    ensures depth + Nesting(Decode(r, node, depth, active).value) <= r.codec.maxDepth
  {
    DecodedByView(r, node, depth, active);
    assert Look(node).ScalarView? ==> !Look(node).scalar.JList? && !Look(node).scalar.JDict?;
    hide Look, Shape, NodeSize, Height, Decode;
  }

  lemma {:induction false} ListNesting(r: Reader, node: Json, children: seq<Json>, depth: nat, active: set<string>)
    requires Look(node) == ListView(children) && Decode(r, node, depth, active).Some?
    ensures depth + Nesting(Decode(r, node, depth, active).value) <= r.codec.maxDepth
    decreases Room(r, active), node, 0
  {
    DecodedByView(r, node, depth, active);
    assert depth <= r.codec.maxDepth by { hide Look, Shape, NodeSize, Height, Decode; }
    hide Look, Decode, DecodeItems, Nesting, Room, Measurable, NodeSize;
    ItemsDeep(r, children, 0, depth + 1, active);
    var v := Decode(r, node, depth, active).value;
    ItemsNestingAtMost(v.items, 0, r.codec.maxDepth - depth);
    NestingOf(v);
  }

  lemma {:induction false} DictNesting(r: Reader, node: Json, pairs: seq<Json>, depth: nat, active: set<string>)
    requires Look(node) == DictView(pairs) && Decode(r, node, depth, active).Some?
    ensures depth + Nesting(Decode(r, node, depth, active).value) <= r.codec.maxDepth
    decreases Room(r, active), node, 0
  {
    DecodedByView(r, node, depth, active);
    assert depth <= r.codec.maxDepth by { hide Look, Shape, NodeSize, Height, Decode; }
    hide Look, Decode, DecodePairs, Nesting, Room, Measurable, NodeSize;
    PairsDeep(r, pairs, 0, depth + 1, active);
    var v := Decode(r, node, depth, active).value;
    EntriesNestingAtMost(v.entries, 0, r.codec.maxDepth - depth);
    NestingOf(v);
  }

  lemma NestingOf(v: Json)
    ensures v.JList? ==> Nesting(v) == ItemsNesting(v.items, 0)
    ensures v.JDict? ==> Nesting(v) == EntriesNesting(v.entries, 0)
  {
  }

  lemma {:induction false} ItemsDeep(r: Reader, children: seq<Json>, k: nat, depth: nat, active: set<string>)
    requires k <= |children| && DecodeItems(r, children, k, depth, active).Some?
    ensures forall i :: 0 <= i < |children| - k ==>
      depth + Nesting(DecodeItems(r, children, k, depth, active).value[i]) <= r.codec.maxDepth
    decreases Room(r, active), children, |children| - k
  {
    hide Decode, Nesting;
    if k < |children| {
      DecodedNesting(r, children[k], depth, active);
      ItemsDeep(r, children, k + 1, depth, active);
    }
  }

  lemma {:induction false} PairsDeep(r: Reader, pairs: seq<Json>, k: nat, depth: nat, active: set<string>)
    requires k <= |pairs| && DecodePairs(r, pairs, k, depth, active).Some?
    ensures forall i :: 0 <= i < |pairs| - k ==>
      depth + Nesting(DecodePairs(r, pairs, k, depth, active).value[i].value) <= r.codec.maxDepth
    decreases Room(r, active), pairs, |pairs| - k
  {
    hide Decode, Nesting;
    if k < |pairs| {
      DecodedNesting(r, PairChild(pairs[k]), depth, active);
      PairsDeep(r, pairs, k + 1, depth, active);
    }
  }
}
