/** Typed nodes: the tagged JSON lists that stand for values in stored text, and what
    the decoder measures of them without loading any reference. */
module TypedNode {
  import opened StrictJson

  function NullNode(): Json { JList([JString("null")]) }
  function ScalarNode(tag: string, v: Json): Json { JList([JString(tag), v]) }
  function RefNode(digest: string, size: nat): Json
  {
    JList([JString("ref"), JString(digest), JInt(size)])
  }
  function ListNode(children: seq<Json>): Json { JList([JString("list"), JList(children)]) }
  function DictNode(pairs: seq<Json>): Json { JList([JString("dict"), JList(pairs)]) }
  function PairNode(key: string, child: Json): Json { JList([JString(key), child]) }

  predicate IsHexDigit(c: char) { '0' <= c <= '9' || 'a' <= c <= 'f' }

  /** Sixty-four lower-case hexadecimal digits. */
  predicate IsDigest(s: string)
  {
    |s| == 64 && forall i :: 0 <= i < |s| ==> IsHexDigit(s[i])
  }

  /** What the outermost level of a node says, with every shape test of the source.
      `Invalid` is a node that the source refuses. */
  datatype View =
    | NullView
    | ScalarView(scalar: Json)
    | RefView(digest: string, size: nat)
    | ListView(children: seq<Json>)
    | DictView(pairs: seq<Json>)
    | Invalid

  function Look(node: Json): (view: View)
    ensures view.ListView? ==>
      node.JList? && |node.items| == 2 && node.items[1] == JList(view.children)
    ensures view.DictView? ==>
      node.JList? && |node.items| == 2 && node.items[1] == JList(view.pairs)
    ensures view.ScalarView? ==> Strict(view.scalar)
    ensures view.RefView? ==> IsDigest(view.digest)
  {
    if !node.JList? || |node.items| == 0 || !node.items[0].JString? then Invalid
    else
      var tag, n := node.items[0].text, |node.items|;
      if tag == "null" && n == 1 then NullView
      else if tag == "bool" && n == 2 && node.items[1].JBool? then ScalarView(node.items[1])
      else if tag == "int" && n == 2 && node.items[1].JInt? then ScalarView(node.items[1])
      else if tag == "float" && n == 2 && node.items[1].JFloat? then ScalarView(node.items[1])
      else if tag == "string" && n == 2 && node.items[1].JString? then ScalarView(node.items[1])
      else if tag == "ref" then
        if n == 3 && node.items[1].JString? && IsDigest(node.items[1].text)
           && node.items[2].JInt? && node.items[2].number >= 0
        then RefView(node.items[1].text, node.items[2].number)
        else Invalid
      else if tag == "list" && n == 2 && node.items[1].JList? then ListView(node.items[1].items)
      else if tag == "dict" && n == 2 && node.items[1].JList? then DictView(node.items[1].items)
      else Invalid
  }

  /** A dict entry is a two-element list of a string and a node. */
  predicate IsPair(pair: Json)
  {
    pair.JList? && |pair.items| == 2 && pair.items[0].JString? && pair.items[1].JList?
  }

  function PairKey(pair: Json): string
    requires IsPair(pair)
  {
    pair.items[0].text
  }

  function PairChild(pair: Json): (child: Json)
    requires IsPair(pair)
    ensures child == pair.items[1]
  {
    pair.items[1]
  }

  /** Each entry is a pair, and its key is above the key before it. */
  predicate PairsInOrder(pairs: seq<Json>, n: nat)
    requires n <= |pairs|
  {
    && (forall i :: 0 <= i < n ==> IsPair(pairs[i]))
    && (forall i :: 0 < i < n ==> StringLess(PairKey(pairs[i - 1]), PairKey(pairs[i])))
  }

  /** The whole inlined part of a node is well typed. */
  predicate Shape(node: Json)
    decreases node
  {
    match Look(node)
    case Invalid => false
    case ListView(children) =>
      forall i :: 0 <= i < |children| ==> children[i].JList? && Shape(children[i])
    case DictView(pairs) =>
      PairsInOrder(pairs, |pairs|) && forall i :: 0 <= i < |pairs| ==> Shape(PairChild(pairs[i]))
    case _ => true
  }

  /** The logical length that a node claims: a reference claims the length it carries. */
  function NodeSize(node: Json): nat
    decreases node, 0
  {
    match Look(node)
    case NullView => 4
    case ScalarView(scalar) => LogicalSize(scalar)
    case RefView(_, size) => size
    case ListView(children) => 2 + ChildrenSize(children, 0)
    case DictView(pairs) => 2 + PairsSize(pairs, 0)
    case Invalid => 0
  }

  function ChildrenSize(children: seq<Json>, k: nat): nat
    requires k <= |children|
    decreases children, |children| - k
  {
    if k == |children| then 0
    else Separator(k) + NodeSize(children[k]) + ChildrenSize(children, k + 1)
  }

  function PairSize(pair: Json, k: nat): nat
    decreases pair, 1
  {
    if IsPair(pair)
    then Separator(k) + Utf8Size(StringText(PairKey(pair))) + 1 + NodeSize(PairChild(pair))
    else 0
  }

  function PairsSize(pairs: seq<Json>, k: nat): nat
    requires k <= |pairs|
    decreases pairs, |pairs| - k
  {
    if k == |pairs| then 0 else PairSize(pairs[k], k) + PairsSize(pairs, k + 1)
  }

  /** Levels of inlined containers above the deepest inlined node. */
  function Height(node: Json): nat
    decreases node, 0
  {
    match Look(node)
    case ListView(children) => ChildrenHeight(children, 0)
    case DictView(pairs) => PairsHeight(pairs, 0)
    case _ => 0
  }

  function ChildrenHeight(children: seq<Json>, k: nat): nat
    requires k <= |children|
    decreases children, |children| - k
  {
    if k == |children| then 0
    else Max(1 + Height(children[k]), ChildrenHeight(children, k + 1))
  }

  function PairHeight(pair: Json): nat
    decreases pair, 1
  {
    if IsPair(pair) then 1 + Height(PairChild(pair)) else 0
  }

  function PairsHeight(pairs: seq<Json>, k: nat): nat
    requires k <= |pairs|
    decreases pairs, |pairs| - k
  {
    if k == |pairs| then 0 else Max(PairHeight(pairs[k]), PairsHeight(pairs, k + 1))
  }

  predicate IsFilled(node: Json)
  {
    match Look(node)
    case ListView(children) => |children| > 0
    case DictView(pairs) => |pairs| > 0
    case _ => false
  }

  /** When measuring a node at a depth succeeds: it is well typed, it is not too deep, and
      no running total of a container exceeds the bound. */
  predicate Measurable(node: Json, depth: nat, maxDepth: nat, maximum: nat)
  {
    Shape(node) && depth + Height(node) <= maxDepth && (IsFilled(node) ==> NodeSize(node) <= maximum)
  }

  // ---------------------------------------------------------------- bounds over children

  lemma {:induction false} ChildrenCovered(children: seq<Json>, k: nat)
    requires k <= |children|
    ensures forall i :: k <= i < |children| ==>
      NodeSize(children[i]) <= ChildrenSize(children, k) && 1 + Height(children[i]) <= ChildrenHeight(children, k)
    decreases |children| - k
  {
    if k < |children| {
      ChildrenCovered(children, k + 1);
    }
  }

  lemma {:induction false} PairsCovered(pairs: seq<Json>, k: nat)
    requires k <= |pairs|
    ensures forall i :: k <= i < |pairs| ==>
      PairSize(pairs[i], i) <= PairsSize(pairs, k) && PairHeight(pairs[i]) <= PairsHeight(pairs, k)
    decreases |pairs| - k
  {
    if k < |pairs| {
      PairsCovered(pairs, k + 1);
    }
  }

  lemma {:induction false} ChildrenHeightAtMost(children: seq<Json>, k: nat, bound: nat)
    requires k <= |children|
    requires forall i :: k <= i < |children| ==> 1 + Height(children[i]) <= bound
    ensures ChildrenHeight(children, k) <= bound
    decreases |children| - k
  {
    if k < |children| {
      ChildrenHeightAtMost(children, k + 1, bound);
    }
  }

  lemma {:induction false} PairsHeightAtMost(pairs: seq<Json>, k: nat, bound: nat)
    requires k <= |pairs|
    requires forall i :: k <= i < |pairs| ==> PairHeight(pairs[i]) <= bound
    ensures PairsHeight(pairs, k) <= bound
    decreases |pairs| - k
  {
    if k < |pairs| {
      PairsHeightAtMost(pairs, k + 1, bound);
    }
  }

  /** The children of a measurable container are measurable one level down. */
  lemma MeasurableParts(node: Json, depth: nat, maxDepth: nat, maximum: nat)
    requires Measurable(node, depth, maxDepth, maximum)
    ensures Look(node).ListView? ==>
      forall i :: 0 <= i < |Look(node).children| ==>
        && Measurable(Look(node).children[i], depth + 1, maxDepth, maximum)
        && NodeSize(Look(node).children[i]) <= maximum
    ensures Look(node).DictView? ==>
      forall i :: 0 <= i < |Look(node).pairs| ==>
        && Measurable(PairChild(Look(node).pairs[i]), depth + 1, maxDepth, maximum)
        && NodeSize(PairChild(Look(node).pairs[i])) <= maximum
  {
    match Look(node)
    case ListView(children) => ChildrenCovered(children, 0);
    case DictView(pairs) =>
      PairsCovered(pairs, 0);
      forall i | 0 <= i < |pairs|
        ensures Measurable(PairChild(pairs[i]), depth + 1, maxDepth, maximum)
        ensures NodeSize(PairChild(pairs[i])) <= maximum
      {
        assert PairSize(pairs[i], i) <= PairsSize(pairs, 0);
        assert PairHeight(pairs[i]) <= PairsHeight(pairs, 0);
      }
    case _ =>
  }
}
