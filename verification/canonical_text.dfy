/** Canonical text is read back by a JSON parser, given only that it reads the numbers back that
    occur. So canonical text is unambiguous, which is what makes a digest of it name one value. */
module CanonicalText {
  import opened StrictJson
  import opened ContentDecoding
  import opened JsonParser

  /** What may follow a value inside a larger text. */
  predicate Ends(rest: string) { |rest| == 0 || rest[0] in {',', ']', '}'} }

  /** The conversion of numbers reads back the known ones. For Python these are the floats as it
      prints them and the integers within its limit on digits. */
  ghost predicate ReadsNumbers(numbers: Numbers, known: Json -> bool)
  {
    forall v :: IsNumber(v) && known(v) ==> numbers(Canonical(v)) == Some(v)
  }

  // ---------------------------------------------------------------- numbers

  lemma {:induction false} DecimalDigits(n: nat)
    ensures |DecimalText(n)| >= 1 && forall i :: 0 <= i < |DecimalText(n)| ==> IsDigit(DecimalText(n)[i])
  {
    if n >= 10 {
      DecimalDigits(n / 10);
    }
  }

  /** The characters of a number, up to whatever ends it. */
  lemma NumberText(v: Json)
    requires IsNumber(v)
    ensures |Canonical(v)| >= 1
    ensures forall i :: 0 <= i < |Canonical(v)| ==> IsNumeric(Canonical(v)[i])
  {
    if v.JInt? {
      DecimalDigits(if v.number < 0 then -v.number else v.number);
    }
  }

  lemma {:induction false} RunOfNumber(t: string, x: string)
    requires Ends(x) && forall i :: 0 <= i < |t| ==> IsNumeric(t[i])
    ensures NumberRun(t + x) == |t|
  {
    if |t| == 0 {
      assert t + x == x;
    } else {
      assert (t + x)[1..] == t[1..] + x;
      RunOfNumber(t[1..], x);
    }
  }

  lemma NumberParses(numbers: Numbers, known: Json -> bool, v: Json, x: string)
    requires IsNumber(v) && known(v) && ReadsNumbers(numbers, known) && Ends(x)
    ensures ParseValue(numbers, Canonical(v) + x) == Some((v, x))
  {
    var t := Canonical(v);
    NumberText(v);
    RunOfNumber(t, x);
    hide Canonical, NumberRun;
    assert (t + x)[0] == t[0] && IsNumeric(t[0]);
    assert Skip(t + x) == t + x;
    assert (t + x)[..|t|] == t && (t + x)[|t|..] == x;
  }

  // ---------------------------------------------------------------- strings

  lemma HexReads(n: nat)
    requires n < 16
    ensures HexValue(HexDigit(n)) == Some(n)
  {
  }

  lemma ControlParses(c: char, x: string)
    requires c as int < 32
    ensures Unicode("00" + [HexDigit(c as int / 16), HexDigit(c as int % 16)] + x) == Some((c, x))
  {
    HexReads(c as int / 16);
    HexReads(c as int % 16);
    hide HexDigit;
    var s := "00" + [HexDigit(c as int / 16), HexDigit(c as int % 16)] + x;
    assert HexCode(s) == Some(c as int);
    assert s[4..] == x;
  }

  lemma CharParses(c: char, x: string)
    ensures ParseString(EscapedChar(c) + x) == Prepend(c, ParseString(x))
  {
    var s := EscapedChar(c) + x;
    assert s[|EscapedChar(c)|..] == x;
    if |EscapedChar(c)| == 2 {
      assert s[1..][1..] == x;
    } else if |EscapedChar(c)| == 6 {
      ControlParses(c, x);
      assert s[1..] == "u" + ("00" + [HexDigit(c as int / 16), HexDigit(c as int % 16)] + x);
      assert s[1..][1..] == "00" + [HexDigit(c as int / 16), HexDigit(c as int % 16)] + x;
    }
  }

  lemma {:induction false} StringParses(s: string, x: string)
    ensures ParseString(Escaped(s) + "\"" + x) == Some((s, x))
  {
    if |s| == 0 {
      assert Escaped(s) + "\"" + x == "\"" + x;
    } else {
      var rest := Escaped(s[1..]) + "\"" + x;
      assert Escaped(s) + "\"" + x == EscapedChar(s[0]) + rest;
      hide ParseString, EscapedChar;
      CharParses(s[0], rest);
      StringParses(s[1..], x);
      assert s == [s[0]] + s[1..];
    }
  }

  lemma TextParses(numbers: Numbers, s: string, x: string)
    ensures ParseValue(numbers, StringText(s) + x) == Some((JString(s), x))
    ensures ParseKey(StringText(s) + (":" + x)) == Some((s, x))
  {
    hide Escaped, ParseString;
    StringParses(s, x);
    StringParses(s, ":" + x);
    assert (StringText(s) + x)[1..] == Escaped(s) + "\"" + x;
    assert (StringText(s) + (":" + x))[1..] == Escaped(s) + "\"" + (":" + x);
  }

  // ---------------------------------------------------------------- values

  /** The first character is no space and closes nothing. */
  lemma LeadOf(v: Json)
    requires Plain(v)
    ensures |Canonical(v)| >= 1 && !IsSpace(Canonical(v)[0]) && Canonical(v)[0] !in {',', ']', '}'}
  {
    if IsNumber(v) {
      NumberText(v);
    }
  }

  lemma {:induction false} ValueParses(numbers: Numbers, known: Json -> bool, v: Json, x: string)
    requires Strict(v) && NumbersIn(v, known) && ReadsNumbers(numbers, known) && Ends(x)
    ensures ParseValue(numbers, Canonical(v) + x) == Some((v, x))
    decreases v, 1
  {
    if IsNumber(v) {
      NumberParses(numbers, known, v, x);
    } else if v.JString? {
      TextParses(numbers, v.text, x);
    } else if v.JList? {
      hide ReadsNumbers;
      ListParses(numbers, known, v.items, x);
    } else if v.JDict? {
      hide ReadsNumbers;
      DictParses(numbers, known, v.entries, x);
    } else {
      var t := Canonical(v);
      assert Skip(t + x) == t + x && (t + x)[..|t|] == t && (t + x)[|t|..] == x;
    }
  }

  lemma {:induction false} ListParses(numbers: Numbers, known: Json -> bool, items: seq<Json>, x: string)
    requires (forall i :: 0 <= i < |items| ==> Strict(items[i]) && NumbersIn(items[i], known))
    requires ReadsNumbers(numbers, known) && Ends(x)
    ensures ParseValue(numbers, Canonical(JList(items)) + x) == Some((JList(items), x))
    decreases items, |items| + 1
  {
    hide *;
    ListText(items, x);
    if |items| == 0 {
      EmptyList(numbers, x);
    } else {
      FirstItem(items, x);
      ItemsParse(numbers, known, items, 0, x);
      OpenList(numbers, ItemsText(items, 0) + "]" + x);
      assert items[0..] == items;
    }
  }

  lemma ListText(items: seq<Json>, x: string)
    ensures Canonical(JList(items)) + x == "[" + (ItemsText(items, 0) + "]" + x)
    ensures items == [] ==> ItemsText(items, 0) + "]" + x == "]" + x
  {
    assert "[" + ItemsText(items, 0) + "]" + x == "[" + (ItemsText(items, 0) + "]" + x);
  }

  lemma EmptyList(numbers: Numbers, x: string)
    ensures ParseValue(numbers, "[" + ("]" + x)) == Some((JList([]), x))
  {
    assert ("]" + x)[0] == ']' && ("]" + x)[1..] == x;
    OpenList(numbers, "]" + x);
    hide ParseValue, ParseItems;
  }

  /** A list text without its opening bracket. */
  lemma OpenList(numbers: Numbers, inner: string)
    requires |inner| > 0 && !IsSpace(inner[0])
    ensures ParseValue(numbers, "[" + inner) ==
      if inner[0] == ']' then Some((JList([]), inner[1..]))
      else if ParseItems(numbers, inner).None? then None
      else Some((JList(ParseItems(numbers, inner).value.0), ParseItems(numbers, inner).value.1))
  {
    hide ParseItems;
    assert ("[" + inner)[1..] == inner && Skip("[" + inner) == "[" + inner && Skip(inner) == inner;
  }

  lemma FirstItem(items: seq<Json>, x: string)
    requires |items| > 0 && Strict(items[0])
    ensures var inner := ItemsText(items, 0) + "]" + x;
            && inner == Canonical(items[0]) + (ItemsText(items, 1) + "]" + x)
            && |inner| > 0 && !IsSpace(inner[0]) && inner[0] != ']'
  {
    ItemStep(items, 0, x);
    LeadOf(items[0]);
    hide Canonical, ItemsText, IsSpace;
    var inner := ItemsText(items, 0) + "]" + x;
    assert inner == Canonical(items[0]) + (ItemsText(items, 1) + "]" + x);
    assert inner[0] == Canonical(items[0])[0];
  }

  /** After an item comes the closing bracket or a comma. */
  lemma NextItem(numbers: Numbers, s: string, v: Json, rest: string)
    requires ParseValue(numbers, s) == Some((v, rest)) && |rest| > 0 && rest[0] in {',', ']'}
    ensures ParseItems(numbers, s) ==
      if rest[0] == ']' then Some(([v], rest[1..]))
      else if ParseItems(numbers, rest[1..]).None? then None
      else Some(([v] + ParseItems(numbers, rest[1..]).value.0, ParseItems(numbers, rest[1..]).value.1))
  {
    hide ParseValue;
    assert Skip(rest) == rest;
  }

  lemma ItemStep(items: seq<Json>, k: nat, x: string)
    requires k <= |items|
    ensures var text := ItemsText(items, k) + "]" + x;
            text == if k == |items| then "]" + x else Comma(k) + (Canonical(items[k]) + (ItemsText(items, k + 1) + "]" + x))
    ensures k > 0 ==> Ends(ItemsText(items, k) + "]" + x)
  {
    if k < |items| {
      var c, t, rest := Comma(k), Canonical(items[k]), ItemsText(items, k + 1);
      hide Canonical;
      assert c + t + rest + "]" + x == c + (t + (rest + "]" + x));
    }
  }

  lemma {:induction false} ItemsParse(numbers: Numbers, known: Json -> bool, items: seq<Json>, k: nat, x: string)
    requires k < |items| && forall i :: 0 <= i < |items| ==> Strict(items[i]) && NumbersIn(items[i], known)
    requires ReadsNumbers(numbers, known)
    ensures ParseItems(numbers, Canonical(items[k]) + (ItemsText(items, k + 1) + "]" + x)) == Some((items[k..], x))
    decreases items, |items| - k
  {
    hide Canonical, ItemsText, ReadsNumbers, ParseValue, Strict, NumbersIn;
    var rest := ItemsText(items, k + 1) + "]" + x;
    ItemStep(items, k + 1, x);
    ValueParses(numbers, known, items[k], rest);
    assert items[k..] == [items[k]] + items[k + 1..];
    NextItem(numbers, Canonical(items[k]) + rest, items[k], rest);
    hide ParseItems;
    if k + 1 < |items| {
      ItemsParse(numbers, known, items, k + 1, x);
      assert rest[1..] == Canonical(items[k + 1]) + (ItemsText(items, k + 2) + "]" + x);
    } else {
      assert rest[0] == ']' && rest[1..] == x && items[k..] == [items[k]];
    }
  }

  lemma {:induction false} DictParses(numbers: Numbers, known: Json -> bool, entries: seq<Entry>, x: string)
    requires Ascending(entries) && forall i :: 0 <= i < |entries| ==> Strict(entries[i].value) && NumbersIn(entries[i].value, known)
    requires ReadsNumbers(numbers, known) && Ends(x)
    ensures ParseValue(numbers, Canonical(JDict(entries)) + x) == Some((JDict(entries), x))
    decreases entries, |entries| + 1
  {
    var inner := EntriesText(entries, 0) + "}" + x;
    assert Canonical(JDict(entries)) + x == "{" + inner;
    hide Canonical, EntriesText, ReadsNumbers, ParseValue, ParseEntries, Strict, NumbersIn, Ascending;
    EntryStep(entries, 0, x);
    if |entries| > 0 {
      assert inner == EntryText(entries, 0, x) && inner[0] == '\"';
      hide EntryText;
      OpenDict(numbers, inner);
      EntriesParse(numbers, known, entries, 0, x);
      assert entries[..0] == [];
    } else {
      assert inner[1..] == x && inner[0] == '}';
      OpenDict(numbers, inner);
    }
  }

  /** A dict text without its opening brace. */
  lemma OpenDict(numbers: Numbers, inner: string)
    requires |inner| > 0 && !IsSpace(inner[0])
    ensures ParseValue(numbers, "{" + inner) ==
      if inner[0] == '}' then Some((JDict([]), inner[1..]))
      else if ParseEntries(numbers, inner, []).None? then None
      else Some((JDict(ParseEntries(numbers, inner, []).value.0), ParseEntries(numbers, inner, []).value.1))
  {
    hide ParseEntries;
    assert ("{" + inner)[1..] == inner && Skip("{" + inner) == "{" + inner && Skip(inner) == inner;
  }

  /** After an entry comes the closing brace or a comma. */
  lemma NextEntry(numbers: Numbers, s: string, before: seq<Entry>, key: string, t: string, v: Json, rest: string)
    requires ParseKey(s) == Some((key, t)) && ParseValue(numbers, t) == Some((v, rest)) && |rest| > 0 && rest[0] in {',', '}'}
    ensures ParseEntries(numbers, s, before) ==
      if rest[0] == '}' then Some((Insert(before, key, v), rest[1..]))
      else ParseEntries(numbers, rest[1..], Insert(before, key, v))
  {
    hide ParseValue, ParseKey, Insert;
    assert Skip(rest) == rest;
  }

  /** The text of the entries from one on, without the comma before it. */
  function EntryText(entries: seq<Entry>, k: nat, x: string): string
    requires k < |entries|
  {
    StringText(entries[k].key) + (":" + (Canonical(entries[k].value) + (EntriesText(entries, k + 1) + "}" + x)))
  }

  lemma EntryStep(entries: seq<Entry>, k: nat, x: string)
    requires k <= |entries|
    ensures var text := EntriesText(entries, k) + "}" + x;
            text == if k == |entries| then "}" + x else Comma(k) + EntryText(entries, k, x)
    ensures k > 0 ==> Ends(EntriesText(entries, k) + "}" + x)
  {
    if k < |entries| {
      hide Canonical, StringText;
      Bracketed(Comma(k), StringText(entries[k].key), Canonical(entries[k].value), EntriesText(entries, k + 1), x);
    }
  }

  lemma Bracketed(comma: string, key: string, t: string, rest: string, x: string)
    ensures comma + key + ":" + t + rest + "}" + x == comma + (key + (":" + (t + (rest + "}" + x))))
  {
    var a, b := rest + "}" + x, t + (rest + "}" + x);
    assert t + rest + "}" + x == b;
    assert key + ":" + (t + rest) + "}" + x == key + (":" + b);
    assert comma + key + ":" + t + rest + "}" + x == comma + (key + (":" + b));
  }

  lemma {:induction false} EntriesParse(numbers: Numbers, known: Json -> bool, entries: seq<Entry>, k: nat, x: string)
    requires k < |entries| && Ascending(entries) && ReadsNumbers(numbers, known)
    requires forall i :: 0 <= i < |entries| ==> Strict(entries[i].value) && NumbersIn(entries[i].value, known)
    ensures ParseEntries(numbers, EntryText(entries, k, x), entries[..k]) == Some((entries, x))
    decreases entries, |entries| - k
  {
    var rest := EntriesText(entries, k + 1) + "}" + x;
    hide Canonical, EntriesText, ReadsNumbers, ParseValue, ParseKey, Strict, NumbersIn, StringText, Insert, Ascending;
    TextParses(numbers, entries[k].key, Canonical(entries[k].value) + rest);
    EntryStep(entries, k + 1, x);
    ValueParses(numbers, known, entries[k].value, rest);
    InsertLast(entries, k);
    NextEntry(numbers, EntryText(entries, k, x), entries[..k], entries[k].key, Canonical(entries[k].value) + rest,
      entries[k].value, rest);
    hide ParseEntries;
    if k + 1 < |entries| {
      EntriesParse(numbers, known, entries, k + 1, x);
      hide EntryText;
      assert rest[1..] == EntryText(entries, k + 1, x);
    } else {
      assert rest[1..] == x && entries[..k + 1] == entries;
    }
  }

  lemma {:induction false} Later(entries: seq<Entry>, i: nat, j: nat)
    requires Ascending(entries) && i < j < |entries|
    ensures StringLess(entries[i].key, entries[j].key)
    decreases j
  {
    if i + 1 < j {
      Later(entries, i, j - 1);
      StringLessTransitive(entries[i].key, entries[j - 1].key, entries[j].key);
    }
  }

  lemma {:induction false} NotBoth(a: string, b: string)
    requires StringLess(a, b)
    ensures a != b && !StringLess(b, a)
  {
    if |a| > 0 && a[0] == b[0] {
      NotBoth(a[1..], b[1..]);
    }
  }

  lemma InsertLast(entries: seq<Entry>, k: nat)
    requires Ascending(entries) && k < |entries|
    ensures Insert(entries[..k], entries[k].key, entries[k].value) == entries[..k + 1]
  {
    forall i | 0 <= i < k ensures entries[i].key != entries[k].key && !StringLess(entries[k].key, entries[i].key) {
      Later(entries, i, k);
      NotBoth(entries[i].key, entries[k].key);
    }
    InsertAfter(entries[..k], entries[k].key, entries[k].value);
    assert entries[..k + 1] == entries[..k] + [entries[k]];
  }

  lemma {:induction false} InsertAfter(entries: seq<Entry>, key: string, v: Json)
    requires forall i :: 0 <= i < |entries| ==> entries[i].key != key && !StringLess(key, entries[i].key)
    ensures Insert(entries, key, v) == entries + [Entry(key, v)]
  {
    if |entries| > 0 {
      InsertAfter(entries[1..], key, v);
      assert entries == [entries[0]] + entries[1..];
    }
  }

  // ---------------------------------------------------------------- laws

  /** The law that the codec asks of the text parser holds of every JSON parser whose conversion
      of numbers reads back the known ones. */
  lemma JsonReadsBack(numbers: Numbers, reach: Reach)
    requires ReadsNumbers(numbers, reach.number)
    ensures ReadsBack(s => ParseText(numbers, s), reach)
  {
    hide Strict, NumbersIn, Canonical, ParseValue, ReadsNumbers, Nesting;
    forall v | Strict(v) && NumbersIn(v, reach.number) ensures ParseText(numbers, Canonical(v)) == Some(v) {
      ValueParses(numbers, reach.number, v, "");
      assert Canonical(v) + "" == Canonical(v);
    }
  }

  function DecimalValue(s: string): nat
    requires forall i :: 0 <= i < |s| ==> IsDigit(s[i])
  {
    if |s| == 0 then 0
    else
      assert IsDigit(s[|s| - 1]);
      10 * DecimalValue(s[..|s| - 1]) + (s[|s| - 1] as int - '0' as int)
  }

  predicate Digits(s: string) { |s| > 0 && forall i :: 0 <= i < |s| ==> IsDigit(s[i]) }

  /** Integers by their value, floats by their text. */
  function NumberOf(s: string): Option<Json>
  {
    if IsFloatText(s) then Some(JFloat(s))
    else if Digits(s) then Some(JInt(DecimalValue(s)))
    else if |s| > 0 && s[0] == '-' && Digits(s[1..]) then Some(JInt(-(DecimalValue(s[1..]) as int)))
    else None
  }

  lemma {:induction false} DecimalReads(n: nat)
    ensures Digits(DecimalText(n)) && DecimalValue(DecimalText(n)) == n
  {
    DecimalDigits(n);
    if n >= 10 {
      var t := DecimalText(n);
      DecimalReads(n / 10);
      assert t[..|t| - 1] == DecimalText(n / 10);
    }
  }

  lemma PositiveOf(digits: string)
    requires Digits(digits)
    ensures NumberOf(digits) == Some(JInt(DecimalValue(digits)))
  {
    hide DecimalValue;
    assert '.' !in digits && 'e' !in digits;
  }

  lemma NegativeOf(digits: string)
    requires Digits(digits)
    ensures NumberOf("-" + digits) == Some(JInt(-(DecimalValue(digits) as int)))
  {
    hide DecimalValue;
    var t := "-" + digits;
    assert t[0] == '-' && t[1..] == digits;
    assert '.' !in digits && 'e' !in digits;
  }

  lemma NumberReads(v: Json)
    requires IsNumber(v)
    ensures NumberOf(Canonical(v)) == Some(v)
  {
    if v.JInt? {
      DecimalReads(if v.number < 0 then -v.number else v.number);
      hide DecimalText, DecimalValue, NumberOf, Digits;
      if v.number < 0 {
        NegativeOf(DecimalText(-v.number));
      } else {
        PositiveOf(DecimalText(v.number));
      }
    }
  }

  /** Two strict values with the same canonical text are the same value. */
  lemma CanonicalInjective(v: Json, w: Json)
    requires Strict(v) && Strict(w) && Canonical(v) == Canonical(w)
    ensures v == w
  {
    hide Strict, Canonical, NumberOf, ParseValue;
    forall n | IsNumber(n) ensures NumberOf(Canonical(n)) == Some(n) { NumberReads(n); }
    AnyNumber(v);
    AnyNumber(w);
    ValueParses(NumberOf, _ => true, v, "");
    ValueParses(NumberOf, _ => true, w, "");
  }

  lemma {:induction false} AnyNumber(v: Json)
    ensures NumbersIn(v, _ => true)
  {
    match v
    case JList(items) => forall i | 0 <= i < |items| ensures NumbersIn(items[i], _ => true) { AnyNumber(items[i]); }
    case JDict(entries) =>
      forall i | 0 <= i < |entries| ensures NumbersIn(entries[i].value, _ => true) { AnyNumber(entries[i].value); }
    case _ =>
  }
}
