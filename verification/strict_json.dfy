/** Strict JSON values, their canonical text and its length in UTF-8 bytes.

    One datatype serves both as the application value and as the typed node that the
    content codec stores, because the source keeps typed nodes as JSON lists. */
module StrictJson {

  datatype Option<+T> = None | Some(value: T) {
    function GetOr(default: T): T { if Some? then value else default }
  }

  /** `JDict` holds a Python dict by its entries in key order (see `Ordered`).
      `JFloat` holds a finite float by the text that Python prints for it.
      `JOther` stands for every Python value that is not strict JSON: a non-finite
      float, a tuple, a dict with a key that is not a string, and so on. */
  datatype Json =
    | JNull
    | JBool(flag: bool)
    | JInt(number: int)
    | JFloat(repr: FloatText)
    | JString(text: string)
    | JList(items: seq<Json>)
    | JDict(entries: seq<Entry>)
    | JOther

  datatype Entry = Entry(key: string, value: Json)

  predicate IsDigit(c: char) { '0' <= c <= '9' }

  predicate IsNumeric(c: char) { IsDigit(c) || c in {'-', '+', '.', 'e'} }

  /** Python prints a finite float with a decimal point or an exponent. Which of these texts it does
      print is left open: where that matters, `NumbersIn` names the numbers that occur. */
  predicate IsFloatText(s: string)
  {
    && |s| > 0
    && (forall i :: 0 <= i < |s| ==> IsNumeric(s[i]))
    && ('.' in s || 'e' in s)
  }

  type FloatText = s: string | IsFloatText(s) witness "0.0"

  // ---------------------------------------------------------------- ordering

  /** Python's order on strings, by code point. */
  predicate StringLess(a: string, b: string)
  {
    |b| > 0 && (|a| == 0 || a[0] < b[0] || (a[0] == b[0] && StringLess(a[1..], b[1..])))
  }

  /** The order of keys is total and transitive. */
  lemma {:induction false} StringLessTotal(a: string, b: string)
    ensures a == b || StringLess(a, b) || StringLess(b, a)
  {
    if |a| > 0 && |b| > 0 && a[0] == b[0] {
      StringLessTotal(a[1..], b[1..]);
      assert a == [a[0]] + a[1..] && b == [b[0]] + b[1..];
    }
  }

  lemma {:induction false} StringLessTransitive(a: string, b: string, c: string)
    requires StringLess(a, b) && StringLess(b, c)
    ensures StringLess(a, c)
  {
    if |a| > 0 && a[0] == b[0] == c[0] {
      StringLessTransitive(a[1..], b[1..], c[1..]);
    }
  }

  predicate Ascending(entries: seq<Entry>)
  {
    forall i :: 0 < i < |entries| ==> StringLess(entries[i - 1].key, entries[i].key)
  }

  /** Every dict inside the value lists its entries in strictly increasing key order,
      which is how a Python dict is represented here. */
  predicate Ordered(v: Json)
  {
    match v
    case JList(items) => forall i :: 0 <= i < |items| ==> Ordered(items[i])
    case JDict(entries) =>
      Ascending(entries) && forall i :: 0 <= i < |entries| ==> Ordered(entries[i].value)
    case _ => true
  }

  /** No part of the value falls outside strict JSON. */
  predicate Plain(v: Json)
  {
    match v
    case JList(items) => forall i :: 0 <= i < |items| ==> Plain(items[i])
    case JDict(entries) => forall i :: 0 <= i < |entries| ==> Plain(entries[i].value)
    case JOther => false
    case _ => true
  }

  predicate Strict(v: Json) { Ordered(v) && Plain(v) }

  predicate IsNumber(v: Json) { v.JInt? || v.JFloat? }

  /** Every number in the value is one of the known ones. */
  predicate NumbersIn(v: Json, known: Json -> bool)
  {
    match v
    case JInt(_) => known(v)
    case JFloat(_) => known(v)
    case JList(items) => forall i :: 0 <= i < |items| ==> NumbersIn(items[i], known)
    case JDict(entries) => forall i :: 0 <= i < |entries| ==> NumbersIn(entries[i].value, known)
    case _ => true
  }

  // ---------------------------------------------------------------- canonical text

  function DecimalText(n: nat): string
  {
    if n < 10 then [('0' as int + n) as char]
    else DecimalText(n / 10) + [('0' as int + n % 10) as char]
  }

  function IntText(i: int): string { if i < 0 then "-" + DecimalText(-i) else DecimalText(i) }

  function HexDigit(n: nat): char
    requires n < 16
  {
    if n < 10 then ('0' as int + n) as char else ('a' as int + (n - 10)) as char
  }

  /** Escapes of `json.dumps(..., ensure_ascii=False)`. */
  function EscapedChar(c: char): string
  {
    if c == '\"' then "\\\""
    else if c == '\\' then "\\\\"
    else if c == '\n' then "\\n"
    else if c == '\r' then "\\r"
    else if c == '\t' then "\\t"
    else if c as int == 8 then "\\b"
    else if c as int == 12 then "\\f"
    else if c as int < 32 then "\\u00" + [HexDigit(c as int / 16), HexDigit(c as int % 16)]
    else [c]
  }

  function Escaped(s: string): string
  {
    if |s| == 0 then "" else EscapedChar(s[0]) + Escaped(s[1..])
  }

  function StringText(s: string): string { "\"" + Escaped(s) + "\"" }

  /** `json.dumps(value, sort_keys=True, separators=(",", ":"), ensure_ascii=False)`.
      The text of `JOther` is never used: every caller has rejected it before. */
  function Canonical(v: Json): string
    decreases v, 0
  {
    match v
    case JNull => "null"
    case JBool(flag) => if flag then "true" else "false"
    case JInt(number) => IntText(number)
    case JFloat(repr) => repr
    case JString(text) => StringText(text)
    case JList(items) => "[" + ItemsText(items, 0) + "]"
    case JDict(entries) => "{" + EntriesText(entries, 0) + "}"
    case JOther => ""
  }

  function Comma(k: nat): string { if k > 0 then "," else "" }

  /** The text of `items[k..]`, each item after the first preceded by a comma. */
  function ItemsText(items: seq<Json>, k: nat): string
    requires k <= |items|
    decreases items, |items| - k
  {
    if k == |items| then "" else Comma(k) + Canonical(items[k]) + ItemsText(items, k + 1)
  }

  function EntriesText(entries: seq<Entry>, k: nat): string
    requires k <= |entries|
    decreases entries, |entries| - k
  {
    if k == |entries| then ""
    else Comma(k) + StringText(entries[k].key) + ":" + Canonical(entries[k].value)
         + EntriesText(entries, k + 1)
  }

  // ---------------------------------------------------------------- byte lengths

  function CharBytes(c: char): (bytes: nat)
    ensures 1 <= bytes <= 4
  {
    if c as int < 0x80 then 1 else if c as int < 0x800 then 2
    else if c as int < 0x1_0000 then 3 else 4
  }

  function Utf8Size(s: string): nat
  {
    if |s| == 0 then 0 else CharBytes(s[0]) + Utf8Size(s[1..])
  }

  lemma {:induction false} Utf8SizeConcat(a: string, b: string)
    ensures Utf8Size(a + b) == Utf8Size(a) + Utf8Size(b)
  {
    if |a| == 0 {
      assert a + b == b;
    } else {
      assert (a + b)[1..] == a[1..] + b;
      Utf8SizeConcat(a[1..], b);
    }
  }

  lemma {:induction false} Utf8SizeAtLeastLength(s: string)
    ensures |s| <= Utf8Size(s)
  {
    if |s| > 0 {
      Utf8SizeAtLeastLength(s[1..]);
    }
  }

  /** The length in bytes of the canonical UTF-8 encoding of a value. */
  function LogicalSize(v: Json): nat { Utf8Size(Canonical(v)) }

  function Separator(k: nat): nat { if k > 0 then 1 else 0 }

  function ItemsSize(items: seq<Json>, k: nat): nat
    requires k <= |items|
    decreases |items| - k
  {
    if k == |items| then 0
    else Separator(k) + LogicalSize(items[k]) + ItemsSize(items, k + 1)
  }

  function EntriesSize(entries: seq<Entry>, k: nat): nat
    requires k <= |entries|
    decreases |entries| - k
  {
    if k == |entries| then 0
    else Separator(k) + Utf8Size(StringText(entries[k].key)) + 1
         + LogicalSize(entries[k].value) + EntriesSize(entries, k + 1)
  }

  lemma {:induction false} ItemsTextSize(items: seq<Json>, k: nat)
    requires k <= |items|
    ensures Utf8Size(ItemsText(items, k)) == ItemsSize(items, k)
    decreases |items| - k
  {
    if k < |items| {
      ItemsTextSize(items, k + 1);
      Utf8SizeConcat(Comma(k) + Canonical(items[k]), ItemsText(items, k + 1));
      Utf8SizeConcat(Comma(k), Canonical(items[k]));
    }
  }

  lemma {:induction false} EntriesTextSize(entries: seq<Entry>, k: nat)
    requires k <= |entries|
    ensures Utf8Size(EntriesText(entries, k)) == EntriesSize(entries, k)
    decreases |entries| - k
  {
    if k < |entries| {
      EntriesTextSize(entries, k + 1);
      var key, value := StringText(entries[k].key), Canonical(entries[k].value);
      Utf8SizeConcat(Comma(k) + key + ":" + value, EntriesText(entries, k + 1));
      Utf8SizeConcat(Comma(k) + key + ":", value);
      Utf8SizeConcat(Comma(k) + key, ":");
      Utf8SizeConcat(Comma(k), key);
      assert Utf8Size(":") == 1;
    }
  }

  /** The length of a container is the sum that the codec accumulates in its loops. */
  lemma ContainerSize(v: Json)
    ensures v.JList? ==> LogicalSize(v) == 2 + ItemsSize(v.items, 0)
    ensures v.JDict? ==> LogicalSize(v) == 2 + EntriesSize(v.entries, 0)
  {
    if v.JList? {
      var inner := ItemsText(v.items, 0);
      ItemsTextSize(v.items, 0);
      Utf8SizeConcat("[" + inner, "]");
      Utf8SizeConcat("[", inner);
      assert Utf8Size("[") == 1 && Utf8Size("]") == 1;
    } else if v.JDict? {
      var inner := EntriesText(v.entries, 0);
      EntriesTextSize(v.entries, 0);
      Utf8SizeConcat("{" + inner, "}");
      Utf8SizeConcat("{", inner);
      assert Utf8Size("{") == 1 && Utf8Size("}") == 1;
    }
  }

  /** The accumulated length never exceeds the whole, and covers every item. */
  lemma {:induction false} ItemsSizeBounds(items: seq<Json>, k: nat)
    requires k <= |items|
    ensures forall i :: k <= i < |items| ==> LogicalSize(items[i]) <= ItemsSize(items, k)
    decreases |items| - k
  {
    if k < |items| {
      ItemsSizeBounds(items, k + 1);
    }
  }

  lemma {:induction false} EntriesSizeBounds(entries: seq<Entry>, k: nat)
    requires k <= |entries|
    ensures forall i :: k <= i < |entries| ==> LogicalSize(entries[i].value) < EntriesSize(entries, k)
    decreases |entries| - k
  {
    if k < |entries| {
      EntriesSizeBounds(entries, k + 1);
      var head := Separator(k) + Utf8Size(StringText(entries[k].key)) + 1 + LogicalSize(entries[k].value);
      assert EntriesSize(entries, k) == head + EntriesSize(entries, k + 1);
      forall i | k <= i < |entries|
        ensures LogicalSize(entries[i].value) < EntriesSize(entries, k)
      {
        if i == k {
          assert LogicalSize(entries[i].value) < head;
        }
      }
    }
  }

  /** A part of a value is strictly shorter than the value. */
  lemma PartIsSmaller(v: Json)
    ensures v.JList? ==> forall i :: 0 <= i < |v.items| ==> LogicalSize(v.items[i]) < LogicalSize(v)
    ensures v.JDict? ==>
      forall i :: 0 <= i < |v.entries| ==> LogicalSize(v.entries[i].value) < LogicalSize(v)
  {
    ContainerSize(v);
    if v.JList? {
      ItemsSizeBounds(v.items, 0);
    } else if v.JDict? {
      EntriesSizeBounds(v.entries, 0);
    }
  }

  // ---------------------------------------------------------------- nesting

  /** Number of container levels above the deepest part; an empty container has none. */
  function Nesting(v: Json): nat
    decreases v, 0
  {
    match v
    case JList(items) => ItemsNesting(items, 0)
    case JDict(entries) => EntriesNesting(entries, 0)
    case _ => 0
  }

  function ItemsNesting(items: seq<Json>, k: nat): nat
    requires k <= |items|
    decreases items, |items| - k
  {
    if k == |items| then 0 else Max(1 + Nesting(items[k]), ItemsNesting(items, k + 1))
  }

  function EntriesNesting(entries: seq<Entry>, k: nat): nat
    requires k <= |entries|
    decreases entries, |entries| - k
  {
    if k == |entries| then 0
    else Max(1 + Nesting(entries[k].value), EntriesNesting(entries, k + 1))
  }

  function Max(a: nat, b: nat): nat { if a < b then b else a }

  lemma {:induction false} ItemsNestingCovers(items: seq<Json>, k: nat)
    requires k <= |items|
    ensures forall i :: k <= i < |items| ==> 1 + Nesting(items[i]) <= ItemsNesting(items, k)
    decreases |items| - k
  {
    if k < |items| {
      ItemsNestingCovers(items, k + 1);
    }
  }

  lemma {:induction false} ItemsNestingAtMost(items: seq<Json>, k: nat, bound: nat)
    requires k <= |items|
    requires forall i :: k <= i < |items| ==> 1 + Nesting(items[i]) <= bound
    ensures ItemsNesting(items, k) <= bound
    decreases |items| - k
  {
    if k < |items| {
      ItemsNestingAtMost(items, k + 1, bound);
    }
  }

  lemma {:induction false} EntriesNestingCovers(entries: seq<Entry>, k: nat)
    requires k <= |entries|
    ensures forall i :: k <= i < |entries| ==> 1 + Nesting(entries[i].value) <= EntriesNesting(entries, k)
    decreases |entries| - k
  {
    if k < |entries| {
      EntriesNestingCovers(entries, k + 1);
    }
  }

  lemma {:induction false} EntriesNestingAtMost(entries: seq<Entry>, k: nat, bound: nat)
    requires k <= |entries|
    requires forall i :: k <= i < |entries| ==> 1 + Nesting(entries[i].value) <= bound
    ensures EntriesNesting(entries, k) <= bound
    decreases |entries| - k
  {
    if k < |entries| {
      EntriesNestingAtMost(entries, k + 1, bound);
    }
  }
}
