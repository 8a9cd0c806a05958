/** What is stored apart: exactly the large parts of a value, each as a text that means the part. */
module ContentSpilling {
  import opened StrictJson
  import opened ContentEncoding
  import opened ContentDecoding

  /** `w` lies `k` levels down in `v`. */
  ghost predicate Part(v: Json, w: Json, k: nat)
    decreases k
  {
    if k == 0 then v == w
    else
      match v
      case JList(items) => exists i :: 0 <= i < |items| && Part(items[i], w, k - 1)
      case JDict(entries) => exists i :: 0 <= i < |entries| && Part(entries[i].value, w, k - 1)
      case _ => false
  }

  /** A part that is at least as long as the threshold and not at the deepest level. */
  ghost predicate LargePart(c: Codec, v: Json, w: Json, k: nat)
  {
    Part(v, w, k) && LogicalSize(w) >= c.threshold && k < c.maxDepth
  }

  /** The object is filed under the hash of its text, carries the length of the part, and its text
      decodes to the part. */
  ghost predicate StandsFor(r: Reader, o: Object, w: Json, k: nat)
  {
    && o.digest == r.codec.digest(o.encoded) && o.size == LogicalSize(w)
    && exists body :: Canonical(body) == o.encoded && Decode(r, body, k, {}) == Some(w)
  }

  // ---------------------------------------------------------------- large parts are objects

  /** The part of the value on the way to a deeper one. */
  lemma OneDown(v: Json, w: Json, k: nat) returns (u: Json)
    requires Part(v, w, k) && k > 0
    ensures Part(u, w, k - 1)
    ensures v.JList? || v.JDict?
    ensures v.JList? ==> u in v.items
    ensures v.JDict? ==> exists i :: 0 <= i < |v.entries| && v.entries[i].value == u
  {
    if v.JList? {
      var i :| 0 <= i < |v.items| && Part(v.items[i], w, k - 1);
      u := v.items[i];
    } else {
      var i :| 0 <= i < |v.entries| && Part(v.entries[i].value, w, k - 1);
      u := v.entries[i].value;
    }
  }

  lemma ChildIsEncodable(c: Codec, v: Json, depth: nat, u: Json)
    requires Encodable(c, v, depth) && (v.JList? || v.JDict?)
    requires v.JList? ==> u in v.items
    requires v.JDict? ==> exists i :: 0 <= i < |v.entries| && v.entries[i].value == u
    ensures Encodable(c, u, depth + 1) && Objects(c, u, depth + 1) <= Objects(c, v, depth)
  {
    EncodableParts(c, v, depth);
    assert InnerObjects(c, v, depth) <= Objects(c, v, depth) by { hide InnerObjects, LogicalSize, Own; }
    hide *;
  }

  lemma ChildNumbers(v: Json, u: Json, known: Json -> bool)
    requires NumbersIn(v, known) && (v.JList? || v.JDict?)
    requires v.JList? ==> u in v.items
    requires v.JDict? ==> exists i :: 0 <= i < |v.entries| && v.entries[i].value == u
    ensures NumbersIn(u, known)
  {
  }

  lemma {:induction false} PartIsObject(c: Codec, v: Json, depth: nat, w: Json, k: nat)
    requires Encodable(c, v, depth) && Part(v, w, k) && LogicalSize(w) >= c.threshold && depth + k < c.maxDepth
    ensures Own(c, w, depth + k) in Objects(c, v, depth)
    decreases k
  {
    if k == 0 {
      hide LogicalSize, Own, Encodable, InnerObjects;
    } else {
      hide *;
      var u := OneDown(v, w, k);
      ChildIsEncodable(c, v, depth, u);
      PartIsObject(c, u, depth + 1, w, k - 1);
    }
  }

  /** Every part of an encodable value is encodable at its level, and what it spills is spilled. */
  lemma {:induction false} PartIsEncodable(c: Codec, v: Json, depth: nat, w: Json, k: nat, known: Json -> bool)
    requires Encodable(c, v, depth) && Part(v, w, k) && NumbersIn(v, known)
    ensures Encodable(c, w, depth + k) && Objects(c, w, depth + k) <= Objects(c, v, depth) && NumbersIn(w, known)
    decreases k
  {
    if k == 0 {
      hide LogicalSize, Encodable, Objects, NumbersIn;
    } else {
      hide *;
      var u := OneDown(v, w, k);
      ChildIsEncodable(c, v, depth, u);
      ChildNumbers(v, u, known);
      PartIsEncodable(c, u, depth + 1, w, k - 1, known);
    }
  }

  // ---------------------------------------------------------------- objects are large parts

  lemma {:induction false} ObjectIsPart(c: Codec, v: Json, depth: nat, o: Object) returns (w: Json, k: nat)
    requires o in Objects(c, v, depth)
    ensures Part(v, w, k) && LogicalSize(w) >= c.threshold && depth + k < c.maxDepth && o == Own(c, w, depth + k)
    decreases v, 1
  {
    hide LogicalSize, Own, ItemsObjects, EntriesObjects;
    if o in InnerObjects(c, v, depth) {
      if v.JList? {
        var i;
        i, w, k := ItemOf(c, v, v.items, |v.items|, depth + 1, o);
      } else {
        var i;
        i, w, k := EntryOf(c, v, v.entries, |v.entries|, depth + 1, o);
      }
      k := k + 1;
    } else {
      w, k := v, 0;
    }
  }

  lemma {:induction false} ItemOf(c: Codec, v: Json, items: seq<Json>, n: nat, depth: nat, o: Object)
    returns (i: nat, w: Json, k: nat)
    requires v == JList(items) && n <= |items| && o in ItemsObjects(c, items, n, depth)
    ensures i < |items| && Part(items[i], w, k)
    ensures LogicalSize(w) >= c.threshold && depth + k < c.maxDepth && o == Own(c, w, depth + k)
    decreases v, 0, n
  {
    hide LogicalSize, Own, Objects, Part;
    if o in Objects(c, items[n - 1], depth) {
      i := n - 1;
      w, k := ObjectIsPart(c, items[i], depth, o);
    } else {
      i, w, k := ItemOf(c, v, items, n - 1, depth, o);
    }
  }

  lemma {:induction false} EntryOf(c: Codec, v: Json, entries: seq<Entry>, n: nat, depth: nat, o: Object)
    returns (i: nat, w: Json, k: nat)
    requires v == JDict(entries) && n <= |entries| && o in EntriesObjects(c, entries, n, depth)
    ensures i < |entries| && Part(entries[i].value, w, k)
    ensures LogicalSize(w) >= c.threshold && depth + k < c.maxDepth && o == Own(c, w, depth + k)
    decreases v, 0, n
  {
    hide LogicalSize, Own, Objects, Part;
    if o in Objects(c, entries[n - 1].value, depth) {
      i := n - 1;
      w, k := ObjectIsPart(c, entries[i].value, depth, o);
    } else {
      i, w, k := EntryOf(c, v, entries, n - 1, depth, o);
    }
  }

  // ---------------------------------------------------------------- what is stored apart

  lemma OwnStandsFor(r: Reader, reach: Reach, v: Json, w: Json, k: nat)
    requires Parses(r, reach) && NumbersIn(v, reach.number) && Encodable(r.codec, v, 0)
    requires Stores(r.table, Objects(r.codec, v, 0)) && Part(v, w, k)
    ensures StandsFor(r, Own(r.codec, w, k), w, k)
  {
    hide *;
    PartIsEncodable(r.codec, v, 0, w, k, reach.number);
    StoresFewer(r.table, Objects(r.codec, w, k), Objects(r.codec, v, 0));
    InnerIsFewer(r, w, k);
    InlineDecodes(r, reach, w, k, {}, LogicalSize(w));
    BodyStandsFor(r, w, k);
  }

  lemma StoresFewer(table: Table, some: set<Object>, all: set<Object>)
    requires Stores(table, all) && some <= all
    ensures Stores(table, some)
  {
  }

  lemma InnerIsFewer(r: Reader, w: Json, k: nat)
    requires Stores(r.table, Objects(r.codec, w, k))
    ensures Stores(r.table, InnerObjects(r.codec, w, k)) && Above(r.table, {}, LogicalSize(w))
  {
    hide InnerObjects, LogicalSize, Own;
  }

  lemma BodyStandsFor(r: Reader, w: Json, k: nat)
    requires Decode(r, Inline(r.codec, w, k), k, {}) == Some(w)
    ensures StandsFor(r, Own(r.codec, w, k), w, k)
  {
    hide Inline, Decode, LogicalSize, Canonical;
  }

  /** The objects of a value are exactly its large parts. */
  lemma LargePartsStoredApart(r: Reader, reach: Reach, v: Json)
    requires Parses(r, reach) && NumbersIn(v, reach.number) && Encodable(r.codec, v, 0)
    requires Stores(r.table, Objects(r.codec, v, 0))
    ensures forall w, k :: LargePart(r.codec, v, w, k) ==> exists o :: o in Objects(r.codec, v, 0) && StandsFor(r, o, w, k)
    ensures forall o :: o in Objects(r.codec, v, 0) ==> exists w, k :: LargePart(r.codec, v, w, k) && StandsFor(r, o, w, k)
  {
    hide Parses, Encodable, Stores, Objects, StandsFor, NumbersIn, LogicalSize, Part, Own;
    forall w, k | LargePart(r.codec, v, w, k) ensures exists o :: o in Objects(r.codec, v, 0) && StandsFor(r, o, w, k) {
      PartIsObject(r.codec, v, 0, w, k);
      OwnStandsFor(r, reach, v, w, k);
    }
    forall o | o in Objects(r.codec, v, 0) ensures exists w, k :: LargePart(r.codec, v, w, k) && StandsFor(r, o, w, k) {
      var w, k := ObjectIsPart(r.codec, v, 0, o);
      OwnStandsFor(r, reach, v, w, k);
    }
  }
}
