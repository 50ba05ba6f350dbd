/**
 * A reader of JSON text without white space, written from RFC 8259 (sections 3
 * to 7), and what it makes of the canonical text: the value that was printed,
 * with the keys of every object rising.
 */
module JsonReader {
  import opened Canonical
  import opened Utf8

  /** What was read and the text left, or no value at all. */
  datatype Reading<T> = Got(value: T, rest: Text) | Bad

  // ---------------------------------------------------------------- strings (section 7)

  predicate IsHex(u: Unit) {
    48 <= u <= 57 || 65 <= u <= 70 || 97 <= u <= 102
  }

  function HexValue(u: Unit): (n: nat)
    requires IsHex(u)
    ensures n < 16
  {
    if u <= 57 then u as int - 48 else if u <= 70 then u as int - 55 else u as int - 87
  }

  /** A backslash, the letter u and four hexadecimal digits. */
  predicate SpelledOut(t: Text) {
    |t| >= 6 && t[0] == 92 && t[1] == 117 && IsHex(t[2]) && IsHex(t[3]) && IsHex(t[4]) && IsHex(t[5])
  }

  function SpelledUnit(t: Text): Unit
    requires SpelledOut(t)
  {
    var high, low := HexValue(t[2]) * 16 + HexValue(t[3]), HexValue(t[4]) * 16 + HexValue(t[5]);
    assert high < 256 && low < 256;
    (high * 256 + low) as Unit
  }

  /** The letter after a backslash, and what the two stand for. */
  const ESCAPES: map<Unit, Unit> :=
    map[34 := 34, 92 := 92, 47 := 47, 98 := 8, 102 := 12, 110 := 10, 114 := 13, 116 := 9]

  function Cons(u: Unit, r: Reading<Text>): Reading<Text> {
    if r.Got? then Got([u] + r.value, r.rest) else Bad
  }

  /** After the opening quotation mark. */
  function ReadChars(t: Text): (r: Reading<Text>)
    ensures r.Got? ==> |r.rest| < |t|
  {
    if t == [] then Bad
    else if t[0] == 34 then Got([], t[1..])
    else if SpelledOut(t) then Cons(SpelledUnit(t), ReadChars(t[6..]))
    else if t[0] == 92 then
      if |t| > 1 && t[1] in ESCAPES then Cons(ESCAPES[t[1]], ReadChars(t[2..])) else Bad
    else if t[0] < 32 then Bad
    else Cons(t[0], ReadChars(t[1..]))
  }

  function ReadString(t: Text): (r: Reading<Text>)
    ensures r.Got? ==> |r.rest| < |t|
  {
    if t != [] && t[0] == 34 then ReadChars(t[1..]) else Bad
  }

  lemma SpelledReads(u: Unit, x: Text)
    ensures var t := [0x5C, 117] + Hex4(u) + x;
            SpelledOut(t) && SpelledUnit(t) == u && t[6..] == x
  {
    FourDigits(u as int);
    var t := [0x5C, 117] + Hex4(u) + x;
    assert t[2] == HexDigit(u / 0x1000) && t[3] == HexDigit(u / 0x100 % 0x10);
    assert t[4] == HexDigit(u / 0x10 % 0x10) && t[5] == HexDigit(u % 0x10);
  }

  lemma EscapeReads(u: Unit, paired: bool, x: Text)
    ensures ReadChars(EscapeUnit(u, paired) + x) == Cons(u, ReadChars(x))
  {
    SpelledReads(u, x);
    var e := EscapeUnit(u, paired);
    assert (e + x)[|e|..] == x;
    hide Hex4;
    assert e != [] && e[0] == (e + x)[0] && (|e| > 1 ==> e[1] == (e + x)[1]);
  }

  lemma EndReads(x: Text)
    ensures ReadChars([0x22] + x) == Got([], x)
  {
    assert ([0x22] + x)[1..] == x;
  }

  lemma {:induction false} BodyReads(s: Text, afterHigh: bool, x: Text)
    ensures ReadChars(Body(s, afterHigh) + [0x22] + x) == Got(s, x)
    decreases |s|
  {
    hide ReadChars;
    if s == [] {
      EndReads(x);
      assert Body(s, afterHigh) + [0x22] + x == [0x22] + x;
    } else {
      var rest := Body(s[1..], Opens(s)) + [0x22] + x;
      BodyReads(s[1..], Opens(s), x);
      BodyUnfolds(s, afterHigh, x);
      hide Body, EscapeUnit, Paired, Opens;
      EscapeReads(s[0], Paired(s, afterHigh), rest);
      assert [s[0]] + s[1..] == s;
    }
  }

  /** A quoted string reads back, whatever follows. */
  lemma QuoteReadsBack(s: Text, x: Text)
    ensures ReadString(Quote(s) + x) == Got(s, x)
  {
    BodyReads(s, false, x);
    assert (Quote(s) + x)[1..] == Body(s, false) + [0x22] + x;
  }

  // ---------------------------------------------------------------- values (sections 3 to 6)

  function NumberLength(t: Text): (n: nat)
    ensures n <= |t|
  {
    if t != [] && NumberUnit(t[0]) then 1 + NumberLength(t[1..]) else 0
  }

  predicate StartsWith(t: Text, word: Text) {
    word <= t
  }

  /** One of the three literal names. */
  function ReadWord(t: Text): (r: Reading<Json>)
    ensures r.Got? ==> |r.rest| < |t|
  {
    if StartsWith(t, [110, 117, 108, 108]) then Got(JNull, t[4..])
    else if StartsWith(t, [116, 114, 117, 101]) then Got(JBool(true), t[4..])
    else if StartsWith(t, [102, 97, 108, 115, 101]) then Got(JBool(false), t[5..])
    else Bad
  }

  function ReadValue(t: Text): (r: Reading<Json>)
    ensures r.Got? ==> |r.rest| < |t|
    decreases |t|, 0
  {
    if t == [] then Bad
    else if t[0] == 34 then
      var s := ReadString(t);
      if s.Got? then Got(JString(s.value), s.rest) else Bad
    else if NumberUnit(t[0]) then Got(JNumber(t[..NumberLength(t)]), t[NumberLength(t)..])
    else if t[0] == 91 then
      if |t| > 1 && t[1] == 93 then Got(JArray([]), t[2..])
      else
        var items := ReadItems(t[1..]);
        if items.Got? then Got(JArray(items.value), items.rest) else Bad
    else if t[0] == 123 then
      if |t| > 1 && t[1] == 125 then Got(JObject([]), t[2..])
      else
        var fields := ReadFields(t[1..]);
        if fields.Got? then Got(JObject(fields.value), fields.rest) else Bad
    else ReadWord(t)
  }

  /** Values parted by commas, up to the closing bracket. */
  function ReadItems(t: Text): (r: Reading<seq<Json>>)
    ensures r.Got? ==> |r.rest| < |t|
    decreases |t|, 1
  {
    var item := ReadValue(t);
    if item.Bad? || item.rest == [] then Bad
    else if item.rest[0] == 93 then Got([item.value], item.rest[1..])
    else if item.rest[0] == 44 then
      var more := ReadItems(item.rest[1..]);
      if more.Got? then Got([item.value] + more.value, more.rest) else Bad
    else Bad
  }

  /** Members parted by commas, up to the closing brace. */
  function ReadFields(t: Text): (r: Reading<seq<Field>>)
    ensures r.Got? ==> |r.rest| < |t|
    decreases |t|, 1
  {
    var key := ReadString(t);
    if key.Bad? || key.rest == [] || key.rest[0] != 58 then Bad
    else
      var value := ReadValue(key.rest[1..]);
      if value.Bad? || value.rest == [] then Bad
      else if value.rest[0] == 125 then Got([Field(key.value, value.value)], value.rest[1..])
      else if value.rest[0] == 44 then
        var more := ReadFields(value.rest[1..]);
        if more.Got? then Got([Field(key.value, value.value)] + more.value, more.rest) else Bad
      else Bad
  }

  lemma {:induction false} NumberReads(t: Text, x: Text)
    requires (forall i :: 0 <= i < |t| ==> NumberUnit(t[i])) && Delimited(x)
    ensures NumberLength(t + x) == |t|
    decreases |t|
  {
    if t == [] {
      assert t + x == x;
    } else {
      assert (t + x)[1..] == t[1..] + x;
      NumberReads(t[1..], x);
    }
  }

  lemma WordsRead(j: Json, x: Text)
    requires j.JNull? || j.JBool?
    ensures ReadValue(Print(j) + x) == Got(j, x)
  {
    var t := Print(j) + x;
    OneWord(j, x);
    hide ReadString, ReadItems, ReadFields, NumberLength, ReadWord, Print;
    assert t[0] in {110, 116, 102};
  }

  lemma OneWord(j: Json, x: Text)
    requires j.JNull? || j.JBool?
    ensures var t := Print(j) + x; t != [] && t[0] in {110, 116, 102} && ReadWord(t) == Got(j, x)
  {
    var p := Print(j);
    assert (p + x)[|p|..] == x && p <= p + x;
    assert (p + x)[0] == p[0] && (p + x)[1] == p[1];
  }

  lemma NumberReadsBack(t: Text, x: Text)
    requires NumberText(t) && Delimited(x)
    ensures ReadValue(t + x) == Got(JNumber(t), x)
  {
    NumberReads(t, x);
    assert NumberUnit(t[0]) && (t + x)[0] == t[0];
    assert (t + x)[|t|..] == x && (t + x)[..|t|] == t;
    hide ReadString, ReadItems, ReadFields, NumberLength, ReadWord;
  }

  lemma QuotedReads(t: Text)
    requires t != [] && t[0] == 34
    ensures ReadValue(t) == if ReadString(t).Got? then Got(JString(ReadString(t).value), ReadString(t).rest) else Bad
  {
    hide ReadString, ReadItems, ReadFields, NumberLength, ReadWord;
  }

  lemma ArrayReads(t: Text)
    requires t != [] && t[0] == 91
    ensures |t| > 1 && t[1] == 93 ==> ReadValue(t) == Got(JArray([]), t[2..])
    ensures !(|t| > 1 && t[1] == 93) && ReadItems(t[1..]).Got? ==>
              ReadValue(t) == Got(JArray(ReadItems(t[1..]).value), ReadItems(t[1..]).rest)
  {
    hide ReadString, ReadItems, ReadFields, NumberLength, ReadWord;
  }

  lemma ObjectReads(t: Text)
    requires t != [] && t[0] == 123
    ensures |t| > 1 && t[1] == 125 ==> ReadValue(t) == Got(JObject([]), t[2..])
    ensures !(|t| > 1 && t[1] == 125) && ReadFields(t[1..]).Got? ==>
              ReadValue(t) == Got(JObject(ReadFields(t[1..]).value), ReadFields(t[1..]).rest)
  {
    hide ReadString, ReadItems, ReadFields, NumberLength, ReadWord;
  }

  lemma Bracketed(open: Unit, body: Text, close: Unit, x: Text)
    ensures var t := [open] + body + [close] + x;
            t[0] == open && t[1..] == body + [close] + x && t[1] == (body + [close] + x)[0]
    ensures body == [] ==> ([open] + body + [close] + x)[2..] == x
  {}

  /** A value reads back, its fields in the order they were printed. */
  lemma {:induction false} PrintReadsBack(j: Json, x: Text)
    requires Finite(j) && Delimited(x)
    ensures ReadValue(Print(j) + x) == Got(j, x)
    decreases j, 1
  {
    hide ReadValue, ReadItems, ReadFields, ReadString, Quote, Delimited;
    match j
    case JNumber(t) => NumberReadsBack(t, x);
    case JString(s) =>
      QuoteReadsBack(s, x);
      QuoteStarts(s, x);
      QuotedReads(Quote(s) + x);
    case JArray(items) =>
      Bracketed(91, PrintItems(j, items), 93, x);
      ArrayReads([91] + PrintItems(j, items) + [93] + x);
      ItemsStart(j, items, x);
      if items != [] {
        ItemsReadBack(j, items, x);
      }
    case JObject(fields) =>
      Bracketed(123, PrintFields(j, fields), 125, x);
      ObjectReads([123] + PrintFields(j, fields) + [125] + x);
      FieldsStart(j, fields, x);
      if fields != [] {
        FieldsReadBack(j, fields, x);
      }
    case _ => WordsRead(j, x);
  }

  lemma {:induction false} ItemsReadBack(owner: Json, items: seq<Json>, x: Text)
    requires items != [] && forall i :: 0 <= i < |items| ==> items[i] < owner && Finite(items[i])
    ensures ReadItems(PrintItems(owner, items) + [93] + x) == Got(items, x)
    decreases owner, 0, |items|
  {
    hide ReadValue, Print, Finite;
    var rest := ItemsRest(owner, items, x);
    ItemsUnfold(owner, items, x);
    PrintReadsBack(items[0], rest);
    if |items| == 1 {
      assert rest[0] == 93 && rest[1..] == x && [items[0]] == items;
    } else {
      var after := PrintItems(owner, items[1..]) + [93] + x;
      assert rest[0] == 44 && rest[1..] == after && [items[0]] + items[1..] == items;
      ItemsReadBack(owner, items[1..], x);
    }
    hide PrintItems, ItemsRest;
  }

  lemma {:induction false} FieldsReadBack(owner: Json, fields: seq<Field>, x: Text)
    requires fields != [] && forall i :: 0 <= i < |fields| ==> fields[i].value < owner && Finite(fields[i].value)
    ensures ReadFields(PrintFields(owner, fields) + [125] + x) == Got(fields, x)
    decreases owner, 0, |fields|
  {
    hide ReadValue, ReadString, Quote, Print, Finite;
    var rest := FieldsRest(owner, fields, x);
    var value := Print(fields[0].value) + rest;
    FieldsUnfold(owner, fields, x);
    QuoteReadsBack(fields[0].key, [58] + value);
    assert ([58] + value)[0] == 58 && ([58] + value)[1..] == value;
    PrintReadsBack(fields[0].value, rest);
    if |fields| == 1 {
      assert rest[0] == 125 && rest[1..] == x && [fields[0]] == fields;
    } else {
      var after := PrintFields(owner, fields[1..]) + [125] + x;
      assert rest[0] == 44 && rest[1..] == after && [fields[0]] + fields[1..] == fields;
      FieldsReadBack(owner, fields[1..], x);
    }
    hide PrintFields, FieldsRest;
  }

  // ---------------------------------------------------------------- the order of keys

  /** At the first place where they differ `a` has the smaller code unit, or it ends there. */
  ghost predicate Earlier(a: Text, b: Text) {
    exists n: nat :: n <= |a| && n < |b| && a[..n] == b[..n] && (n == |a| || a[n] < b[n])
  }

  /** The sort's comparison is that order. */
  lemma {:induction false} LessMeans(a: Text, b: Text)
    ensures Less(a, b) <==> Earlier(a, b)
    decreases |a|
  {
    if a == [] {
      assert b != [] ==> a[..0] == b[..0];
    } else if b != [] && a[0] == b[0] {
      LessMeans(a[1..], b[1..]);
      if Earlier(a[1..], b[1..]) {
        var n: nat :| n <= |a[1..]| && n < |b[1..]| && a[1..][..n] == b[1..][..n] &&
                      (n == |a[1..]| || a[1..][n] < b[1..][n]);
        assert a[..n + 1] == [a[0]] + a[1..][..n] && b[..n + 1] == [b[0]] + b[1..][..n];
      }
      if Earlier(a, b) {
        var n: nat :| n <= |a| && n < |b| && a[..n] == b[..n] && (n == |a| || a[n] < b[n]);
        assert a[1..][..n - 1] == a[..n][1..] && b[1..][..n - 1] == b[..n][1..];
      }
    } else if b != [] {
      assert a[..0] == b[..0];
      assert Earlier(a, b) ==> a[0] < b[0] by {
        if Earlier(a, b) {
          var n: nat :| n <= |a| && n < |b| && a[..n] == b[..n] && (n == |a| || a[n] < b[n]);
          assert n > 0 ==> a[..n][0] == b[..n][0];
        }
      }
    }
  }

  /** The keys of every object rise. */
  ghost predicate KeysRise(j: Json) {
    match j
    case JArray(items) => forall i :: 0 <= i < |items| ==> KeysRise(items[i])
    case JObject(fields) =>
      && (forall i, k :: 0 <= i < k < |fields| ==> Earlier(fields[i].key, fields[k].key))
      && (forall i :: 0 <= i < |fields| ==> KeysRise(fields[i].value))
    case _ => true
  }

  lemma {:induction false} NormalRises(j: Json)
    requires Parsed(j)
    ensures KeysRise(Normal(j))
    decreases j
  {
    match j
    case JArray(items) =>
      forall i | 0 <= i < |items|
        ensures KeysRise(Normal(j).items[i])
      {
        NormalRises(items[i]);
      }
    case JObject(fields) =>
      var sorted, n := SortByKey(fields), Normal(j).fields;
      SortSorts(fields);
      forall i, k | 0 <= i < k < |n|
        ensures Earlier(n[i].key, n[k].key)
      {
        LessMeans(sorted[i].key, sorted[k].key);
      }
      forall i | 0 <= i < |n|
        ensures KeysRise(n[i].value)
      {
        assert sorted[i] in fields;
        NormalRises(sorted[i].value);
      }
    case _ =>
  }

  lemma {:induction false} SortedStays(fields: seq<Field>)
    requires Sorted(fields)
    ensures SortByKey(fields) == fields
    decreases |fields|
  {
    if fields != [] {
      SortedStays(fields[1..]);
      assert [fields[0]] + fields[1..] == fields;
    }
  }

  lemma {:induction false} NormalIsStable(j: Json)
    requires Parsed(j)
    ensures Normal(Normal(j)) == Normal(j)
    decreases j
  {
    var n := Normal(j);
    match j
    case JArray(items) =>
      forall i | 0 <= i < |items|
        ensures Normal(n.items[i]) == n.items[i]
      {
        NormalIsStable(items[i]);
      }
      assert Normal(n).items == n.items;
    case JObject(fields) =>
      var sorted := SortByKey(fields);
      SortSorts(fields);
      SortedStays(n.fields);
      forall i | 0 <= i < |sorted|
        ensures Normal(n.fields[i].value) == n.fields[i].value
      {
        assert sorted[i] in fields;
        NormalIsStable(sorted[i].value);
      }
      assert Normal(n).fields == n.fields;
    case _ =>
  }

  /**
   * Reading the canonical text of any parsed value gives that value again, as
   * a map and with infinities read as null, its keys rising at every level.
   */
  lemma CanonicalReadsBack(j: Json)
    requires Parsed(j)
    ensures var r := ReadValue(Canonicalize(j));
            r.Got? && r.rest == [] && Same(r.value, AsPrinted(j)) && KeysRise(r.value)
  {
    var y := AsPrinted(j);
    PrintsAsPrinted(j);
    CanonicalPrintsNormal(y);
    AsPrintedIsFinite(j);
    FiniteIsParsed(y);
    NormalIsFinite(y);
    FiniteIsParsed(Normal(y));
    NormalIsStable(y);
    NormalDecides(Normal(y), y);
    NormalRises(y);
    PrintReadsBack(Normal(y), []);
    assert Print(Normal(y)) + [] == Print(Normal(y));
    hide ReadValue, Print, Canonicalize, Normal, AsPrinted, Same, KeysRise;
  }

  // ---------------------------------------------------------------- the shortest literal

  lemma PlainPrefix(t: Text, n: nat, open: bool)
    requires 0 < n <= |t| && PairedAfter(t, open) && forall i :: 0 <= i < n ==> !High(t[i]) && !Low(t[i])
    ensures !open && PairedAfter(t[n..], false)
    decreases n
  {
    if n > 1 {
      PlainPrefix(t[1..], n - 1, false);
      assert t[1..][n - 1..] == t[n..];
    }
  }

  lemma EscapesAreShort(u: Unit, paired: bool)
    ensures |EscapeUnit(u, paired)| <= 6
    ensures u in ESCAPES.Values ==> |EscapeUnit(u, paired)| <= 2
    ensures u >= 32 && u != 34 && u != 92 && (High(u) || Low(u) ==> paired) ==> |EscapeUnit(u, paired)| == 1
  {}

  /** The first unit read was spelled in at least as many units as the printer takes. */
  lemma {:induction false} ShortestBody(t: Text, open: bool, s: Text, afterHigh: bool)
    requires ReadChars(t) == Got(s, []) && PairedAfter(t, open) && (open ==> afterHigh)
    ensures |Body(s, afterHigh)| + 1 <= |t|
    decreases |t|
  {
    if t[0] == 34 {
      assert s == [];
    } else {
      var n := if SpelledOut(t) then 6 else if t[0] == 92 then 2 else 1;
      assert ReadChars(t[n..]) == Got(s[1..], []);
      var paired := Paired(s, afterHigh);
      EscapesAreShort(s[0], paired);
      if n > 1 {
        PlainPrefix(t, n, open);
        ShortestBody(t[n..], false, s[1..], Opens(s));
      } else {
        RawPair(t, s);
        ShortestBody(t[1..], High(t[0]), s[1..], Opens(s));
      }
      hide EscapeUnit, ReadChars, PairedAfter;
    }
  }

  /** A high surrogate standing as itself is followed by its partner, which is read as itself. */
  lemma RawPair(t: Text, s: Text)
    requires ReadChars(t) == Got(s, []) && t[0] >= 32 && t[0] != 34 && t[0] != 92
    ensures s != [] && s[0] == t[0] && ReadChars(t[1..]) == Got(s[1..], [])
    ensures High(t[0]) && PairedAfter(t[1..], true) ==> Opens(s)
  {
    if High(t[0]) && PairedAfter(t[1..], true) {
      assert Low(t[1]) && t[1..][0] == t[1];
      assert ReadChars(t[1..]).value[0] == t[1];
    }
  }

  /** The printer's literal is no longer than any other in which no surrogate stands alone. */
  lemma QuoteIsShortest(t: Text, s: Text)
    requires ReadString(t) == Got(s, []) && WellPaired(t)
    ensures ReadString(Quote(s)) == Got(s, []) && WellPaired(Quote(s)) && |Quote(s)| <= |t|
  {
    assert PairedAfter(t[1..], false);
    ShortestBody(t[1..], false, s, false);
    QuotePaired(s);
    QuoteReadsBack(s, []);
    assert Quote(s) + [] == Quote(s);
  }

  /** Hexadecimal digits are printed in lower case. */
  lemma EscapesAreLowerCase(u: Unit, paired: bool, i: nat)
    requires 1 < i < |EscapeUnit(u, paired)|
    ensures var d := EscapeUnit(u, paired)[i]; 48 <= d <= 57 || 97 <= d <= 102
  {
    var digits := Hex4(u);
    assert forall k :: 0 <= k < 4 ==> 48 <= digits[k] <= 57 || 97 <= digits[k] <= 102;
    if |EscapeUnit(u, paired)| == 6 {
      assert EscapeUnit(u, paired)[i] == digits[i - 2];
    }
  }
}
