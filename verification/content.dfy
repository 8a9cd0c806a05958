/** encode_value and decode_value of content.py, and the laws that connect them. */
module Content {
  import opened StrictJson
  import opened TypedNode
  import opened ContentEncoding
  import opened ContentDecoding
  import opened ContentIntegrity
  import opened ContentCodec
  import opened ContentStore
  import opened ContentDecoder

  function CodecFor(digest: Hasher, threshold: nat, maxLogical: nat, maxEncoded: nat, maxDepth: nat): Codec
  {
    Codec(digest, threshold, maxLogical, EncodedLimit(maxLogical, maxEncoded), maxDepth)
  }

  /** The root text that stands for a value. */
  function RootText(c: Codec, v: Json): string
  {
    CONTENT_PREFIX + Canonical(Node(c, v, 0))
  }

  /** When encoding over a table succeeds: the value and its texts are within the limits,
      and no digest is claimed by two different contents. */
  predicate Encodes(c: Codec, rows: Table, v: Json)
  {
    && Encodable(c, v, 0)
    && |CONTENT_PREFIX| + Utf8Size(Canonical(Node(c, v, 0))) <= c.encodedLimit
    && Agree(map[], Objects(c, v, 0))
    && Consistent(rows, Objects(c, v, 0))
  }

  /** Where the table knows one of the digests, it holds that very object. */
  predicate Consistent(rows: Table, objects: set<Object>)
  {
    forall o :: o in objects && o.digest in rows ==> rows[o.digest] == Row(o.encoded, o.size)
  }

  /** The rows hold the objects, and nothing else that was not there before. */
  ghost predicate StoresOnly(before: Table, rows: Table, objects: set<Object>)
  {
    && Stores(rows, objects)
    && (forall d :: d in rows <==> d in before || exists o :: o in objects && o.digest == d)
  }

  /** Encode a value: return its root text, and store what it spills. */
  method EncodeValue(
    table: ObjectTable, digest: Hasher, value: Json, threshold: int,
    maxLogical: int, maxEncoded: int, maxDepth: int) returns (encoded: Option<string>)
    requires Ordered(value)
    modifies table
    ensures encoded.Some? <==>
      && threshold > 0 && maxLogical > 0 && maxEncoded > 0 && maxDepth > 0
      && Encodes(CodecFor(digest, threshold, maxLogical, maxEncoded, maxDepth), old(table.rows), value)
    ensures encoded.Some? ==>
      var c := CodecFor(digest, threshold, maxLogical, maxEncoded, maxDepth);
      && encoded.value == RootText(c, value)
      && StoresOnly(old(table.rows), table.rows, Objects(c, value, 0))
    ensures forall d :: d in old(table.rows) ==> d in table.rows && table.rows[d] == old(table.rows)[d]
  {
    if threshold <= 0 || maxLogical <= 0 || maxEncoded <= 0 || maxDepth <= 0 {
      return None;
    }
    var c := CodecFor(digest, threshold, maxLogical, maxEncoded, maxDepth);
    var encoder := new Encoder(c);
    hide LogicalSize, Objects, Node, Canonical, Utf8Size, Encodable, Insertable, Inserted, Added,
         Agree, StoresOnly, Consistent;
    var built := encoder.Build(value, 0);
    if built.None? {
      return None;
    }
    var text := Canonical(built.value.0);
    var bytes := Utf8SizeWithLimit(text, c.encodedLimit);
    if |CONTENT_PREFIX| + bytes > c.encodedLimit {
      return None;
    }
    InsertionDecides(table.rows, Objects(c, value, 0), encoder.objects);
    var ok := InsertObjects(table, encoder.objects);
    if !ok {
      return None;
    }
    return Some(CONTENT_PREFIX + text);
  }

  lemma InsertionDecides(rows: Table, objects: set<Object>, pending: Pending)
    requires Added(map[], objects, pending)
    ensures Insertable(rows, pending) <==> Consistent(rows, objects)
    ensures StoresOnly(rows, Inserted(rows, pending), objects)
  {
    InsertableObjects(rows, objects, pending);
    InsertedStores(rows, objects, pending);
  }

  lemma InsertableObjects(rows: Table, objects: set<Object>, pending: Pending)
    requires Added(map[], objects, pending)
    ensures Insertable(rows, pending) <==> Consistent(rows, objects)
  {
    if Insertable(rows, pending) {
      forall o | o in objects && o.digest in rows ensures rows[o.digest] == Row(o.encoded, o.size) {
        assert Holds(pending, o);
      }
    }
    if Consistent(rows, objects) {
      forall d | d in pending && d in rows ensures rows[d] == Row(pending[d].0, pending[d].1) {
        var o :| o in objects && o.digest == d;
        assert Holds(pending, o);
      }
    }
  }

  lemma InsertedStores(rows: Table, objects: set<Object>, pending: Pending)
    requires Added(map[], objects, pending)
    ensures StoresOnly(rows, Inserted(rows, pending), objects)
  {
    forall o | o in objects
      ensures o.digest in Inserted(rows, pending)
      ensures Inserted(rows, pending)[o.digest] == Row(o.encoded, o.size)
    {
      assert Holds(pending, o);
    }
    forall d ensures d in Inserted(rows, pending) <==> d in rows || exists o :: o in objects && o.digest == d {
      if o :| o in objects && o.digest == d {
        assert Holds(pending, o);
      }
    }
  }

  // ---------------------------------------------------------------- reading

  /** Plain legacy JSON is accepted under the same logical limits. */
  predicate LegacyOk(v: Json, depth: nat, maxDepth: nat, maximum: nat)
  {
    Plain(v) && depth + Nesting(v) <= maxDepth && LogicalSize(v) <= maximum
  }

  /** What a stored text means over a table: the decoded value, or nothing when the source
      raises. No cache and no read budget are involved. */
  function ValueOf(r: Reader, encoded: string): Option<Json>
  {
    if Utf8Size(encoded) > r.codec.encodedLimit then None
    else if CONTENT_PREFIX <= encoded then
      var root := Parse(r, encoded[|CONTENT_PREFIX|..]);
      if root.None? then None else Decode(r, root.value, 0, {})
    else
      match r.loads(encoded)
      case None => None
      case Some(v) => if LegacyOk(v, 0, r.codec.maxDepth, r.codec.maximum) then Some(v) else None
  }

  /** The objects that reading a stored text loads. */
  function NeededBy(r: Reader, encoded: string): set<string>
  {
    if CONTENT_PREFIX <= encoded && Parse(r, encoded[|CONTENT_PREFIX|..]).Some?
    then Loaded(r, Parse(r, encoded[|CONTENT_PREFIX|..]).value, 0, {})
    else {}
  }

  /** The legacy walk adds sizes child by child and stops once past the bound. */
  method LegacyMeasure(v: Json, maximum: nat, maxDepth: nat, depth: nat) returns (size: Option<nat>)
    ensures size.Some? <==> LegacyOk(v, depth, maxDepth, maximum)
    ensures size.Some? ==> size.value == LogicalSize(v)
    decreases v, 1
  {
    LegacyByParts(v, depth, maxDepth, maximum);
    if depth > maxDepth {
      return None;
    }
    var total;
    match v {
      case JNull => NullFacts(); total := 4;
      case JBool(flag) => BoolSize(flag); total := if flag then 4 else 5;
      case JInt(_) => total := Utf8Size(Canonical(v));
      case JFloat(_) => total := Utf8Size(Canonical(v));
      case JString(_) => total := Utf8Size(Canonical(v));
      case JList(items) => size := LegacyList(v, maximum, maxDepth, depth); return;
      case JDict(entries) => size := LegacyDict(v, maximum, maxDepth, depth); return;
      case JOther => return None;
    }
    if total > maximum {
      return None;
    }
    return Some(total);
  }

  method LegacyList(v: Json, maximum: nat, maxDepth: nat, depth: nat) returns (size: Option<nat>)
    requires v.JList? && depth <= maxDepth
    ensures size.Some? <==> LegacyOk(v, depth, maxDepth, maximum)
    ensures size.Some? ==> size.value == LogicalSize(v)
    decreases v, 0
  {
    hide LogicalSize, LegacyOk;
    LegacyByParts(v, depth, maxDepth, maximum);
    ContainerSize(v);
    var total, index := 2, 0;
    while index < |v.items|
      invariant 0 <= index <= |v.items|
      invariant total + ItemsSize(v.items, index) == LogicalSize(v)
      invariant forall i :: 0 <= i < index ==> LegacyOk(v.items[i], depth + 1, maxDepth, maximum)
    {
      var child := LegacyMeasure(v.items[index], maximum, maxDepth, depth + 1);
      if child.None? {
        return None;
      }
      total := total + child.value + (if index > 0 then 1 else 0);
      if total > maximum {
        break;
      }
      index := index + 1;
    }
    if total > maximum {
      return None;
    }
    return Some(total);
  }

  method LegacyDict(v: Json, maximum: nat, maxDepth: nat, depth: nat) returns (size: Option<nat>)
    requires v.JDict? && depth <= maxDepth
    ensures size.Some? <==> LegacyOk(v, depth, maxDepth, maximum)
    ensures size.Some? ==> size.value == LogicalSize(v)
    decreases v, 0
  {
    hide LogicalSize, LegacyOk, StringText, Utf8Size;
    LegacyByParts(v, depth, maxDepth, maximum);
    ContainerSize(v);
    var total, index := 2, 0;
    while index < |v.entries|
      invariant 0 <= index <= |v.entries|
      invariant total + EntriesSize(v.entries, index) == LogicalSize(v)
      invariant forall i :: 0 <= i < index ==> LegacyOk(v.entries[i].value, depth + 1, maxDepth, maximum)
    {
      total := total + Utf8Size(StringText(v.entries[index].key)) + 1;
      var child := LegacyMeasure(v.entries[index].value, maximum, maxDepth, depth + 1);
      if child.None? {
        return None;
      }
      total := total + child.value + (if index > 0 then 1 else 0);
      if total > maximum {
        break;
      }
      index := index + 1;
    }
    if total > maximum {
      return None;
    }
    return Some(total);
  }

  lemma LegacyByParts(v: Json, depth: nat, maxDepth: nat, maximum: nat)
    ensures LegacyOk(v, depth, maxDepth, maximum) <==>
      && depth <= maxDepth && LogicalSize(v) <= maximum && !v.JOther?
      && (v.JList? ==> forall i :: 0 <= i < |v.items| ==> LegacyOk(v.items[i], depth + 1, maxDepth, maximum))
      && (v.JDict? ==>
            forall i :: 0 <= i < |v.entries| ==> LegacyOk(v.entries[i].value, depth + 1, maxDepth, maximum))
  {
    hide LogicalSize;
    PartIsSmaller(v);
    match v
    case JList(items) =>
      ItemsNestingCovers(items, 0);
      if depth <= maxDepth && forall i :: 0 <= i < |items| ==> LegacyOk(items[i], depth + 1, maxDepth, maximum) {
        ItemsNestingAtMost(items, 0, maxDepth - depth);
      }
    case JDict(entries) =>
      EntriesNestingCovers(entries, 0);
      if depth <= maxDepth
         && forall i :: 0 <= i < |entries| ==> LegacyOk(entries[i].value, depth + 1, maxDepth, maximum) {
        EntriesNestingAtMost(entries, 0, maxDepth - depth);
      }
    case _ =>
  }

  /** Read a stored text. Without a read budget the result is exactly its meaning; with one,
      a success pays for the root text and for each distinct loaded object once, and a text
      with a meaning is refused exactly when that price is above the allowance. */
  method DecodeValue(
    table: ObjectTable, digest: Hasher, loads: string -> Option<Json>, encoded: string,
    maxLogical: int, maxEncoded: int, maxDepth: int, budget: ReadBudget?) returns (v: Option<Json>)
    modifies budget
    ensures maxLogical <= 0 || maxEncoded <= 0 || maxDepth <= 0 ==> v.None?
    ensures maxLogical > 0 && maxEncoded > 0 && maxDepth > 0 ==>
      var r := Reader(table.rows, loads, CodecFor(digest, 0, maxLogical, maxEncoded, maxDepth));
      var price := Utf8Size(encoded) + Cost(table.rows, NeededBy(r, encoded));
      && (v.Some? ==> v == ValueOf(r, encoded) && forall d :: d in NeededBy(r, encoded) ==> SoundRow(r, d))
      && (v.Some? && budget != null ==> budget.remaining + price == old(budget.remaining))
      && (v.None? && ValueOf(r, encoded).Some? ==> budget != null && old(budget.remaining) < price)
  {
    if maxLogical <= 0 || maxEncoded <= 0 || maxDepth <= 0 {
      return None;
    }
    var c := CodecFor(digest, 0, maxLogical, maxEncoded, maxDepth);
    var r := Reader(table.rows, loads, c);
    hide LogicalSize, LegacyOk, Loaded, Decode, Parse, Utf8Size, Cost, SoundRow;
    NeededIsSound(r, encoded);
    var bytes := Utf8SizeWithLimit(encoded, c.encodedLimit);
    if budget != null {
      var paid := budget.Consume(bytes);
      if !paid {
        return None;
      }
    }
    if bytes > c.encodedLimit {
      return None;
    }
    if !(CONTENT_PREFIX <= encoded) {
      var legacy := loads(encoded);
      if legacy.None? {
        return None;
      }
      var size := LegacyMeasure(legacy.value, c.maximum, c.maxDepth, 0);
      if size.None? {
        return None;
      }
      NoCost(table.rows);
      return legacy;
    }
    v := DecodeRoot(r, encoded, budget);
  }

  /** Every object that reading a text loads is the content that its digest names. */
  lemma NeededIsSound(r: Reader, encoded: string)
    ensures forall d :: d in NeededBy(r, encoded) ==> SoundRow(r, d)
  {
    hide Loaded, SoundRow, Parse;
    if CONTENT_PREFIX <= encoded && Parse(r, encoded[|CONTENT_PREFIX|..]).Some? {
      LoadedIsSound(r, Parse(r, encoded[|CONTENT_PREFIX|..]).value, 0, {});
    }
  }

  method DecodeRoot(r: Reader, encoded: string, budget: ReadBudget?) returns (v: Option<Json>)
    requires CONTENT_PREFIX <= encoded && Utf8Size(encoded) <= r.codec.encodedLimit
    modifies budget
    ensures v.Some? ==> v == ValueOf(r, encoded)
    ensures v.Some? && budget != null ==>
      budget.remaining + Cost(r.table, NeededBy(r, encoded)) == old(budget.remaining)
    ensures v.None? && ValueOf(r, encoded).Some? ==>
      budget != null && old(budget.remaining) < Cost(r.table, NeededBy(r, encoded))
  {
    hide LogicalSize, LegacyOk, Loaded, Decode, Parse, Utf8Size, Cost, Measurable, NodeSize;
    var root := Parse(r, encoded[|CONTENT_PREFIX|..]);
    if root.None? {
      return None;
    }
    var decoder := new Decoder(r, budget);
    var measured := Measure(r.codec, root.value, 0);
    if measured.None? || measured.value > r.codec.maximum {
      Unmeasured(r, root.value);
      return None;
    }
    ghost var needed := Loaded(r, root.value, 0, {});
    assert decoder.verified.Keys == {} && needed - {} == needed;
    v := decoder.Run(root.value, 0);
    assert needed == NeededBy(r, encoded) && ValueOf(r, encoded) == Decode(r, root.value, 0, {});
  }

  lemma NoCost(table: Table)
    ensures Cost(table, {}) == 0
  {
  }

  lemma Unmeasured(r: Reader, node: Json)
    requires !Measurable(node, 0, r.codec.maxDepth, r.codec.maximum) || NodeSize(node) > r.codec.maximum
    ensures Decode(r, node, 0, {}).None?
  {
    hide Measurable, NodeSize;
  }

  // ---------------------------------------------------------------- laws

  /** Round trip: once a table holds what encoding a value stores, the root text means that
      value again, under the same limits. No assumption on the hash is needed beyond the
      form of its results, because insertion has compared the contents. */
  lemma RoundTrip(r: Reader, reach: Reach, v: Json)
    requires Parses(r, reach) && NumbersIn(v, reach.number) && Encodes(r.codec, r.table, v)
    requires Stores(r.table, Objects(r.codec, v, 0))
    ensures ValueOf(r, RootText(r.codec, v)) == Some(v)
  {
    hide LogicalSize, Objects, Canonical, Node, Parse, Decode, Encodable, Utf8Size, Agree;
    var node := Node(r.codec, v, 0);
    RootReadsBack(r, reach, v);
    PrefixedText(Canonical(node));
    NodeDecodes(r, reach, v, 0, {});
  }

  lemma PrefixedText(text: string)
    ensures CONTENT_PREFIX <= CONTENT_PREFIX + text
    ensures (CONTENT_PREFIX + text)[|CONTENT_PREFIX|..] == text
    ensures Utf8Size(CONTENT_PREFIX + text) == |CONTENT_PREFIX| + Utf8Size(text)
  {
    hide Utf8Size;
    assert forall i :: 0 <= i < |CONTENT_PREFIX| ==> CONTENT_PREFIX[i] as int < 0x80;
    Prefixed(CONTENT_PREFIX, text);
  }

  lemma Prefixed(prefix: string, text: string)
    requires forall i :: 0 <= i < |prefix| ==> prefix[i] as int < 0x80
    ensures prefix <= prefix + text && (prefix + text)[|prefix|..] == text
    ensures Utf8Size(prefix + text) == |prefix| + Utf8Size(text)
  {
    AsciiSize(prefix);
    Utf8SizeConcat(prefix, text);
  }

  lemma RootReadsBack(r: Reader, reach: Reach, v: Json)
    requires Parses(r, reach) && NumbersIn(v, reach.number) && Encodes(r.codec, r.table, v)
    ensures Parse(r, Canonical(Node(r.codec, v, 0))) == Some(Node(r.codec, v, 0))
  {
    hide LogicalSize, Objects, Canonical, Node, Strict, Represents, NumbersIn, Nesting;
    EncodedIsStrict(r.codec, v, 0);
    EncodedInReach(r.codec, v, 0, reach);
    assert Node(r.codec, v, 0).JList? by { EncodedIsList(r.codec, v, 0); }
    assert r.loads(Canonical(Node(r.codec, v, 0))) == Some(Node(r.codec, v, 0));
  }

  lemma EncodedIsList(c: Codec, v: Json, depth: nat)
    requires Strict(v)
    ensures Node(c, v, depth).JList?
  {
    hide Node, Strict;
    EncodedMeasures(c, v, depth);
  }

  lemma {:induction false} AsciiSize(s: string)
    requires forall i :: 0 <= i < |s| ==> s[i] as int < 0x80
    ensures Utf8Size(s) == |s|
  {
    if |s| > 0 {
      AsciiSize(s[1..]);
    }
  }

  /** The decoder is not told the threshold of the encoder: what a text means does not depend on it. */
  lemma ThresholdForgotten(r: Reader, n: nat, encoded: string)
    ensures ValueOf(Unthresholded(r, n), encoded) == ValueOf(r, encoded)
  {
    var q := Unthresholded(r, n);
    hide Decode, Parse, Utf8Size, LegacyOk;
    if CONTENT_PREFIX <= encoded {
      SameParse(r, n, encoded[|CONTENT_PREFIX|..]);
      if Parse(r, encoded[|CONTENT_PREFIX|..]).Some? {
        SameDecode(r, n, Parse(r, encoded[|CONTENT_PREFIX|..]).value, 0, {});
      }
    }
  }

  /** A table that has come to hold the objects of a value is one over which it can be encoded. */
  lemma EncodesAgain(c: Codec, before: Table, after: Table, v: Json)
    requires Encodes(c, before, v) && Stores(after, Objects(c, v, 0))
    ensures Encodes(c, after, v)
  {
    hide Encodable, Objects, Node, Canonical, Utf8Size, Agree;
  }

  /** What `EncodeValue` returned and stored is read back by `DecodeValue` under the same limits. */
  lemma WrittenIsRead(
    before: Table, after: Table, digest: Hasher, loads: string -> Option<Json>, reach: Reach, v: Json,
    threshold: nat, maxLogical: nat, maxEncoded: nat, maxDepth: nat)
    requires ReadsBack(loads, reach) && NumbersIn(v, reach.number)
    requires var c := CodecFor(digest, threshold, maxLogical, maxEncoded, maxDepth);
             Reaches(reach, c) && Encodes(c, before, v) && Stores(after, Objects(c, v, 0))
    ensures var c := CodecFor(digest, threshold, maxLogical, maxEncoded, maxDepth);
            ValueOf(Reader(after, loads, CodecFor(digest, 0, maxLogical, maxEncoded, maxDepth)), RootText(c, v)) == Some(v)
  {
    var c := CodecFor(digest, threshold, maxLogical, maxEncoded, maxDepth);
    hide Encodes, ValueOf, ReadsBack, Reaches, Stores, RootText, Objects, NumbersIn;
    EncodesAgain(c, before, after, v);
    RoundTrip(Reader(after, loads, c), reach, v);
    ThresholdForgotten(Reader(after, loads, c), 0, RootText(c, v));
  }

  /** Whatever is in two tables, a text that has a meaning over both has the same one, unless two
      different texts in them hash alike. The limits of the readers may differ. */
  lemma OneMeaning(r: Reader, q: Reader, encoded: string)
    requires Comparable(r, q) && ValueOf(r, encoded).Some? && ValueOf(q, encoded).Some?
    ensures ValueOf(r, encoded) == ValueOf(q, encoded)
  {
    if CONTENT_PREFIX <= encoded {
      var text := encoded[|CONTENT_PREFIX|..];
      assert Parse(r, text).Some? && Parse(q, text).Some?;
      ParsedTheSame(r, q, text);
      hide *;
      OneValue(r, q, Parse(r, text).value, 0, {}, 0, {});
    } else {
      hide LegacyOk, Utf8Size, Comparable;
      assert r.loads == q.loads by { SameParser(r, q); }
    }
  }

  lemma SameParser(r: Reader, q: Reader)
    requires Comparable(r, q)
    ensures r.loads == q.loads
  {
  }

  lemma ParsedTheSame(r: Reader, q: Reader, text: string)
    requires Comparable(r, q) && Parse(r, text).Some? && Parse(q, text).Some?
    ensures Parse(r, text) == Parse(q, text)
  {
    hide Strict, Canonical, Utf8Size;
  }

  /** Whatever becomes of the table after a value was written, its root text means that value or
      nothing: a row that was changed, removed or exchanged makes the decoder refuse. */
  lemma NeverAnother(
    before: Table, after: Table, now: Table, digest: Hasher, loads: string -> Option<Json>, reach: Reach, v: Json,
    threshold: nat, maxLogical: nat, maxEncoded: nat, maxDepth: nat, other: Codec)
    requires ReadsBack(loads, reach) && NumbersIn(v, reach.number)
    requires var c := CodecFor(digest, threshold, maxLogical, maxEncoded, maxDepth);
             Reaches(reach, c) && Encodes(c, before, v) && Stores(after, Objects(c, v, 0))
    requires other.digest == digest && Comparable(Reader(after, loads, other), Reader(now, loads, other))
    ensures var text := RootText(CodecFor(digest, threshold, maxLogical, maxEncoded, maxDepth), v);
            ValueOf(Reader(now, loads, other), text) in {None, Some(v)}
  {
    var c := CodecFor(digest, threshold, maxLogical, maxEncoded, maxDepth);
    var d := CodecFor(digest, 0, maxLogical, maxEncoded, maxDepth);
    assert Comparable(Reader(after, loads, d), Reader(now, loads, other)) by { hide *; StillComparable(after, now, loads, d, other); }
    hide *;
    WrittenIsRead(before, after, digest, loads, reach, v, threshold, maxLogical, maxEncoded, maxDepth);
    if ValueOf(Reader(now, loads, other), RootText(c, v)).Some? {
      OneMeaning(Reader(after, loads, d), Reader(now, loads, other), RootText(c, v));
    }
  }

  lemma StillComparable(a: Table, b: Table, loads: string -> Option<Json>, c: Codec, other: Codec)
    requires Comparable(Reader(a, loads, other), Reader(b, loads, other)) && c.digest == other.digest
    ensures Comparable(Reader(a, loads, c), Reader(b, loads, other))
  {
  }

  /** Encoding and reading back: whatever the value, the threshold, the limits and the rows that
      are there already, if encoding returns then decoding returns the value. */
  method EncodeThenDecode(
    table: ObjectTable, digest: Hasher, loads: string -> Option<Json>, ghost reach: Reach, value: Json, threshold: int,
    maxLogical: int, maxEncoded: int, maxDepth: int) returns (encoded: Option<string>, v: Option<Json>)
    requires Ordered(value) && NumbersIn(value, reach.number) && ReadsBack(loads, reach)
    requires threshold > 0 && maxLogical > 0 && maxEncoded > 0 && maxDepth > 0 ==>
      Reaches(reach, CodecFor(digest, threshold, maxLogical, maxEncoded, maxDepth))
    modifies table
    ensures encoded.Some? <==>
      && threshold > 0 && maxLogical > 0 && maxEncoded > 0 && maxDepth > 0
      && Encodes(CodecFor(digest, threshold, maxLogical, maxEncoded, maxDepth), old(table.rows), value)
    ensures encoded.Some? ==> v == Some(value)
  {
    hide Encodes, ValueOf, ReadsBack, Reaches, Stores, RootText, Objects, Ordered, Cost, NeededBy, NumbersIn;
    ghost var before := table.rows;
    encoded := EncodeValue(table, digest, value, threshold, maxLogical, maxEncoded, maxDepth);
    v := None;
    if encoded.Some? {
      WrittenIsRead(before, table.rows, digest, loads, reach, value, threshold, maxLogical, maxEncoded, maxDepth);
      v := DecodeValue(table, digest, loads, encoded.value, maxLogical, maxEncoded, maxDepth, null);
    }
  }

  /** Any table, any root: a decoded value is strict JSON, its canonical length is the length
      that the root claims, and that is within the logical limit. */
  lemma DecodedLength(r: Reader, encoded: string)
    requires CONTENT_PREFIX <= encoded && ValueOf(r, encoded).Some?
    ensures var root := Parse(r, encoded[|CONTENT_PREFIX|..]);
            var v := ValueOf(r, encoded).value;
            && root.Some? && Strict(v)
            && LogicalSize(v) == NodeSize(root.value) <= r.codec.maximum
  {
    hide LogicalSize, Decode, Parse;
    DecodedSize(r, Parse(r, encoded[|CONTENT_PREFIX|..]).value, 0, {});
  }

  /** Whatever is read back is within every limit of the reader, and a root text is the prefix and the
      canonical text of a node of exactly that length. */
  lemma DecodedWithinLimits(r: Reader, encoded: string)
    requires ValueOf(r, encoded).Some?
    ensures var v := ValueOf(r, encoded).value;
            && Plain(v) && LogicalSize(v) <= r.codec.maximum && Nesting(v) <= r.codec.maxDepth
            && Utf8Size(encoded) <= r.codec.encodedLimit
            && (CONTENT_PREFIX <= encoded ==>
                  Strict(v) && exists node :: Strict(node) && encoded == CONTENT_PREFIX + Canonical(node) && NodeSize(node) == LogicalSize(v))
  {
    if CONTENT_PREFIX <= encoded {
      DecodedLength(r, encoded);
      hide LogicalSize, Utf8Size, Decode, NodeSize, Canonical, Nesting;
      var text := encoded[|CONTENT_PREFIX|..];
      var node := Parse(r, text).value;
      assert encoded == CONTENT_PREFIX + text;
      DecodedNesting(r, node, 0, {});
      assert Strict(node) && Canonical(node) == text by { hide Strict; }
    } else {
      hide LogicalSize, Utf8Size, Nesting;
    }
  }
}
