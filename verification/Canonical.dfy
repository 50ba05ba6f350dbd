/**
 * The canonical text of a JSON value (RFC 8259, sections 3 to 7), hashed to
 * identify a session history. Text is a sequence of UTF-16 code units.
 *
 * A finite number is represented by the text its printer gives it, so that
 * printer is taken to be injective up to equality (the two zeros are equal). A
 * literal too large for a number is read as an infinity, which prints as null.
 * Strings are printed in full.
 */
module Canonical {
  newtype Unit = u: int | 0 <= u < 0x1_0000
  type Text = seq<Unit>

  datatype Field = Field(key: Text, value: Json)

  datatype Json =
    | JNull
    | JBool(b: bool)
    | JNumber(text: Text)
    | JInfinite(negative: bool)
    | JString(s: Text)
    | JArray(items: seq<Json>)
    | JObject(fields: seq<Field>)

  predicate NumberUnit(u: Unit) {
    48 <= u <= 57 || u == 43 || u == 45 || u == 46 || u == 69 || u == 101
  }

  predicate NumberText(t: Text) {
    t != [] && forall i :: 0 <= i < |t| ==> NumberUnit(t[i])
  }

  predicate DistinctKeys(fields: seq<Field>) {
    forall i, j :: 0 <= i < j < |fields| ==> fields[i].key != fields[j].key
  }

  /** A value `JSON.parse` can return. */
  ghost predicate Parsed(j: Json) {
    match j
    case JNumber(t) => NumberText(t)
    case JArray(items) => forall i :: 0 <= i < |items| ==> Parsed(items[i])
    case JObject(fields) => DistinctKeys(fields) && forall i :: 0 <= i < |fields| ==> Parsed(fields[i].value)
    case _ => true
  }

  /** A value `JSON.parse` can return whose numbers are all finite. */
  ghost predicate Finite(j: Json) {
    match j
    case JNumber(t) => NumberText(t)
    case JInfinite(_) => false
    case JArray(items) => forall i :: 0 <= i < |items| ==> Finite(items[i])
    case JObject(fields) => DistinctKeys(fields) && forall i :: 0 <= i < |fields| ==> Finite(fields[i].value)
    case _ => true
  }

  ghost predicate HasKey(fields: seq<Field>, k: Text) {
    exists i :: 0 <= i < |fields| && fields[i].key == k
  }

  /** Equality with objects read as maps: the order of keys does not matter. */
  ghost predicate Same(a: Json, b: Json)
    decreases a, 1
  {
    match a
    case JArray(items) =>
      b.JArray? && |b.items| == |items| && forall i :: 0 <= i < |items| ==> Same(items[i], b.items[i])
    case JObject(fields) =>
      && b.JObject?
      && (forall i :: 0 <= i < |fields| ==> HasLike(fields[i], b.fields))
      && (forall k :: 0 <= k < |b.fields| ==> HasKey(fields, b.fields[k].key))
    case _ => a == b
  }

  /** Some field has the key of `f` and the same value. */
  ghost predicate HasLike(f: Field, fields: seq<Field>)
    decreases f.value, 2
  {
    exists k :: 0 <= k < |fields| && fields[k].key == f.key && Same(f.value, fields[k].value)
  }

  // ---------------------------------------------------------------- strings

  function HexDigit(n: Unit): Unit
    requires n < 16
  {
    if n < 10 then 48 + n else 87 + n
  }

  function Hex4(u: Unit): Text {
    [HexDigit(u / 0x1000), HexDigit(u / 0x100 % 0x10), HexDigit(u / 0x10 % 0x10), HexDigit(u % 0x10)]
  }

  predicate High(u: Unit) { 0xD800 <= u <= 0xDBFF }

  predicate Low(u: Unit) { 0xDC00 <= u <= 0xDFFF }

  /** `paired` says a surrogate stands next to its partner. */
  function EscapeUnit(u: Unit, paired: bool): Text {
    if u == 0x22 then [0x5C, 0x22]
    else if u == 0x5C then [0x5C, 0x5C]
    else if u == 8 then [0x5C, 98]
    else if u == 9 then [0x5C, 116]
    else if u == 10 then [0x5C, 110]
    else if u == 12 then [0x5C, 102]
    else if u == 13 then [0x5C, 114]
    else if u < 0x20 || ((High(u) || Low(u)) && !paired) then [0x5C, 117] + Hex4(u)
    else [u]
  }

  /** `s` starts with a surrogate pair. */
  predicate Opens(s: Text) {
    |s| > 1 && High(s[0]) && Low(s[1])
  }

  predicate Paired(s: Text, afterHigh: bool)
    requires s != []
  {
    Opens(s) || (Low(s[0]) && afterHigh)
  }

  function Body(s: Text, afterHigh: bool): Text {
    if s == [] then [] else EscapeUnit(s[0], Paired(s, afterHigh)) + Body(s[1..], Opens(s))
  }

  function Quote(s: Text): Text {
    [0x22] + Body(s, false) + [0x22]
  }

  lemma Cancel(a: Text, b: Text, x: Text, y: Text)
    requires |a| == |b| && a + x == b + y
    ensures a == b && x == y
  {
    assert a == (a + x)[..|a|] && b == (b + y)[..|a|];
    assert x == (a + x)[|a|..] && y == (b + y)[|a|..];
  }

  lemma HexDigitsDiffer(m: Unit, n: Unit)
    requires m < 16 && n < 16 && HexDigit(m) == HexDigit(n)
    ensures m == n
  {}

  lemma FourDigits(u: int)
    ensures u == 0x1000 * (u / 0x1000) + 0x100 * (u / 0x100 % 0x10) + 0x10 * (u / 0x10 % 0x10) + u % 0x10
  {}

  lemma Hex4Injective(u: Unit, v: Unit)
    requires Hex4(u) == Hex4(v)
    ensures u == v
  {
    var s, t := Hex4(u), Hex4(v);
    assert s[0] == t[0] && s[1] == t[1] && s[2] == t[2] && s[3] == t[3];
    HexDigitsDiffer(u / 0x1000, v / 0x1000);
    HexDigitsDiffer(u / 0x100 % 0x10, v / 0x100 % 0x10);
    HexDigitsDiffer(u / 0x10 % 0x10, v / 0x10 % 0x10);
    HexDigitsDiffer(u % 0x10, v % 0x10);
    FourDigits(u as int);
    FourDigits(v as int);
  }

  /** Two escapes that start the same text are escapes of the same unit. */
  lemma EscapeIsPrefixFree(u: Unit, v: Unit, p: bool, q: bool, x: Text, y: Text)
    requires EscapeUnit(u, p) + x == EscapeUnit(v, q) + y
    ensures u == v && x == y
  {
    var e, f := EscapeUnit(u, p), EscapeUnit(v, q);
    var t := e + x;
    assert t == f + y && t[0] == e[0] == f[0];
    if |e| > 1 {
      assert t[1] == e[1] == f[1];
      if |e| == 6 {
        assert e == [0x5C, 117] + Hex4(u) && f == [0x5C, 117] + Hex4(v);
        assert e == t[..6] == f;
        assert e[2..] == Hex4(u) && f[2..] == Hex4(v);
        Hex4Injective(u, v);
      }
    }
    assert u == v && |e| == |f|;
    assert x == t[|e|..] == y;
  }

  /** No escape starts with a bare quotation mark. */
  lemma EscapeStarts(u: Unit, p: bool, x: Text)
    ensures (EscapeUnit(u, p) + x)[0] != 0x22
  {}

  lemma BodyUnfolds(s: Text, p: bool, x: Text)
    requires s != []
    ensures Body(s, p) + [0x22] + x == EscapeUnit(s[0], Paired(s, p)) + (Body(s[1..], Opens(s)) + [0x22] + x)
  {
    hide EscapeUnit;
    var e := EscapeUnit(s[0], Paired(s, p));
    var r := Body(s[1..], Opens(s));
    assert e + r + [0x22] + x == e + (r + [0x22] + x);
  }

  lemma {:induction false} BodyIsPrefixFree(s: Text, t: Text, p: bool, q: bool, x: Text, y: Text)
    requires Body(s, p) + [0x22] + x == Body(t, q) + [0x22] + y
    ensures s == t && x == y
    decreases |s|
  {
    hide EscapeUnit, Paired, Opens;
    if s != [] {
      BodyUnfolds(s, p, x);
      EscapeStarts(s[0], Paired(s, p), Body(s[1..], Opens(s)) + [0x22] + x);
    }
    if t != [] {
      BodyUnfolds(t, q, y);
      EscapeStarts(t[0], Paired(t, q), Body(t[1..], Opens(t)) + [0x22] + y);
    }
    if s == [] || t == [] {
      assert (Body(s, p) + [0x22] + x)[0] == (Body(t, q) + [0x22] + y)[0];
      assert Body([], p) + [0x22] + x == [0x22] + x && Body([], q) + [0x22] + y == [0x22] + y;
      Cancel([0x22], [0x22], x, y);
    } else {
      var rs := Body(s[1..], Opens(s)) + [0x22] + x;
      var rt := Body(t[1..], Opens(t)) + [0x22] + y;
      EscapeIsPrefixFree(s[0], t[0], Paired(s, p), Paired(t, q), rs, rt);
      BodyIsPrefixFree(s[1..], t[1..], Opens(s), Opens(t), x, y);
      assert s == [s[0]] + s[1..] && t == [t[0]] + t[1..];
    }
  }

  lemma QuoteIsPrefixFree(s: Text, t: Text, x: Text, y: Text)
    requires Quote(s) + x == Quote(t) + y
    ensures s == t && x == y
  {
    hide Body;
    assert (Quote(s) + x)[1..] == Body(s, false) + [0x22] + x;
    assert (Quote(t) + y)[1..] == Body(t, false) + [0x22] + y;
    BodyIsPrefixFree(s, t, false, false, x, y);
  }

  // ---------------------------------------------------------------- key order

  /** The order of the default sort: by code units. */
  predicate Less(a: Text, b: Text) {
    if b == [] then false
    else if a == [] then true
    else if a[0] != b[0] then a[0] < b[0]
    else Less(a[1..], b[1..])
  }

  lemma {:induction false} LessIsTotal(a: Text, b: Text)
    ensures Less(a, b) || Less(b, a) || a == b
    ensures !(Less(a, b) && Less(b, a))
    ensures !Less(a, a)
    decreases |a|
  {
    if a != [] {
      if b != [] {
        LessIsTotal(a[1..], b[1..]);
        assert a == [a[0]] + a[1..] && b == [b[0]] + b[1..];
      }
      LessIsTotal(a[1..], a[1..]);
    }
  }

  lemma {:induction false} LessIsTransitive(a: Text, b: Text, c: Text)
    requires Less(a, b) && Less(b, c)
    ensures Less(a, c)
    decreases |a|
  {
    if a != [] && a[0] == b[0] == c[0] {
      LessIsTransitive(a[1..], b[1..], c[1..]);
    }
  }

  predicate Sorted(fields: seq<Field>) {
    forall i, j :: 0 <= i < j < |fields| ==> Less(fields[i].key, fields[j].key)
  }

  function Insert(f: Field, fields: seq<Field>): seq<Field> {
    if fields == [] then [f]
    else if Less(f.key, fields[0].key) then [f] + fields
    else [fields[0]] + Insert(f, fields[1..])
  }

  function SortByKey(fields: seq<Field>): (sorted: seq<Field>)
    ensures forall f :: f in sorted <==> f in fields
  {
    if fields == [] then []
    else
      InsertMembers(fields[0], SortByKey(fields[1..]));
      Insert(fields[0], SortByKey(fields[1..]))
  }

  lemma {:induction false} InsertMembers(f: Field, fields: seq<Field>)
    ensures forall g :: g in Insert(f, fields) <==> g == f || g in fields
    decreases |fields|
  {
    if fields != [] {
      InsertMembers(f, fields[1..]);
    }
  }

  lemma {:induction false} InsertSorted(f: Field, fields: seq<Field>)
    requires Sorted(fields) && forall i :: 0 <= i < |fields| ==> fields[i].key != f.key
    ensures Sorted(Insert(f, fields))
    decreases |fields|
  {
    if fields != [] {
      if Less(f.key, fields[0].key) {
        forall j | 0 <= j < |fields|
          ensures Less(f.key, fields[j].key)
        {
          if j > 0 {
            LessIsTransitive(f.key, fields[0].key, fields[j].key);
          }
        }
      } else {
        InsertSorted(f, fields[1..]);
        InsertMembers(f, fields[1..]);
        LessIsTotal(f.key, fields[0].key);
        var rest := Insert(f, fields[1..]);
        forall j | 0 <= j < |rest|
          ensures Less(fields[0].key, rest[j].key)
        {
          assert rest[j] in rest;
        }
      }
    }
  }

  lemma {:induction false} SortSorts(fields: seq<Field>)
    requires DistinctKeys(fields)
    ensures Sorted(SortByKey(fields))
    decreases |fields|
  {
    if fields != [] {
      SortSorts(fields[1..]);
      var rest := SortByKey(fields[1..]);
      forall i | 0 <= i < |rest|
        ensures rest[i].key != fields[0].key
      {
        assert rest[i] in fields[1..];
      }
      InsertSorted(fields[0], rest);
    }
  }

  /** Sorted lists over the same keys carry them at the same places. */
  lemma {:induction false} SortedKeysAgree(xs: seq<Field>, ys: seq<Field>)
    requires Sorted(xs) && Sorted(ys)
    requires forall k :: HasKey(xs, k) <==> HasKey(ys, k)
    ensures |xs| == |ys| && forall i :: 0 <= i < |xs| ==> xs[i].key == ys[i].key
    decreases |xs|
  {
    if xs == [] || ys == [] {
      if xs != [] { assert HasKey(xs, xs[0].key); }
      if ys != [] { assert HasKey(ys, ys[0].key); }
    } else {
      assert HasKey(xs, xs[0].key) && HasKey(ys, ys[0].key);
      var i :| 0 <= i < |ys| && ys[i].key == xs[0].key;
      var j :| 0 <= j < |xs| && xs[j].key == ys[0].key;
      LessIsTotal(xs[0].key, ys[0].key);
      assert xs[0].key == ys[0].key;
      forall k
        ensures HasKey(xs[1..], k) <==> HasKey(ys[1..], k)
      {
        TailKeys(xs, k);
        TailKeys(ys, k);
      }
      SortedKeysAgree(xs[1..], ys[1..]);
    }
  }

  lemma TailKeys(xs: seq<Field>, k: Text)
    requires Sorted(xs) && xs != []
    ensures HasKey(xs[1..], k) <==> HasKey(xs, k) && k != xs[0].key
  {
    LessIsTotal(k, k);
    if HasKey(xs[1..], k) {
      var i :| 0 <= i < |xs[1..]| && xs[1..][i].key == k;
      assert xs[i + 1].key == k;
    }
    if HasKey(xs, k) && k != xs[0].key {
      var i :| 0 <= i < |xs| && xs[i].key == k;
      assert xs[1..][i - 1].key == k;
    }
  }

  // ---------------------------------------------------------------- canonicalize

  const NULL_TEXT: Text := [110, 117, 108, 108]
  const TRUE_TEXT: Text := [116, 114, 117, 101]
  const FALSE_TEXT: Text := [102, 97, 108, 115, 101]

  /** Keys sorted at every level, no white space. */
  function Canonicalize(j: Json): Text
    decreases j, 1
  {
    match j
    case JNull => NULL_TEXT
    case JBool(b) => if b then TRUE_TEXT else FALSE_TEXT
    case JNumber(t) => t
    case JInfinite(_) => NULL_TEXT
    case JString(s) => Quote(s)
    case JArray(items) => [91] + CanonicalItems(j, items) + [93]
    case JObject(fields) => [123] + CanonicalFields(j, SortByKey(fields)) + [125]
  }

  function CanonicalItems(owner: Json, items: seq<Json>): Text
    requires forall i :: 0 <= i < |items| ==> items[i] < owner
    decreases owner, 0, |items|
  {
    if items == [] then []
    else if |items| == 1 then Canonicalize(items[0])
    else Canonicalize(items[0]) + [44] + CanonicalItems(owner, items[1..])
  }

  function CanonicalFields(owner: Json, fields: seq<Field>): Text
    requires owner.JObject? && forall f :: f in fields ==> f in owner.fields
    decreases owner, 0, |fields|
  {
    if fields == [] then []
    else
      assert fields[0] in owner.fields;
      var one := Quote(fields[0].key) + [58] + Canonicalize(fields[0].value);
      if |fields| == 1 then one else one + [44] + CanonicalFields(owner, fields[1..])
  }

  // ---------------------------------------------------------------- normal form

  /** Keys sorted at every level. */
  function Normal(j: Json): Json
    decreases j, 1
  {
    match j
    case JArray(items) => JArray(NormalItems(j, items))
    case JObject(fields) => JObject(NormalFields(j, SortByKey(fields)))
    case _ => j
  }

  function NormalItems(owner: Json, items: seq<Json>): (r: seq<Json>)
    requires forall i :: 0 <= i < |items| ==> items[i] < owner
    ensures |r| == |items| && forall i :: 0 <= i < |items| ==> r[i] == Normal(items[i])
    decreases owner, 0, |items|
  {
    if items == [] then [] else [Normal(items[0])] + NormalItems(owner, items[1..])
  }

  function NormalFields(owner: Json, fields: seq<Field>): (r: seq<Field>)
    requires owner.JObject? && forall f :: f in fields ==> f in owner.fields
    ensures |r| == |fields|
    ensures forall i :: 0 <= i < |fields| ==>
              && fields[i] in owner.fields
              && r[i] == Field(fields[i].key, Normal(fields[i].value))
    decreases owner, 0, |fields|
  {
    if fields == [] then []
    else
      assert fields[0] in owner.fields;
      [Field(fields[0].key, Normal(fields[0].value))] + NormalFields(owner, fields[1..])
  }

  /** The plain printer, fields in the order given. */
  function Print(j: Json): Text
    decreases j, 1
  {
    match j
    case JNull => NULL_TEXT
    case JBool(b) => if b then TRUE_TEXT else FALSE_TEXT
    case JNumber(t) => t
    case JInfinite(_) => NULL_TEXT
    case JString(s) => Quote(s)
    case JArray(items) => [91] + PrintItems(j, items) + [93]
    case JObject(fields) => [123] + PrintFields(j, fields) + [125]
  }

  function PrintItems(owner: Json, items: seq<Json>): Text
    requires forall i :: 0 <= i < |items| ==> items[i] < owner
    decreases owner, 0, |items|
  {
    if items == [] then []
    else if |items| == 1 then Print(items[0])
    else Print(items[0]) + [44] + PrintItems(owner, items[1..])
  }

  function PrintFields(owner: Json, fields: seq<Field>): Text
    requires forall i :: 0 <= i < |fields| ==> fields[i].value < owner
    decreases owner, 0, |fields|
  {
    if fields == [] then []
    else
      var one := Quote(fields[0].key) + [58] + Print(fields[0].value);
      if |fields| == 1 then one else one + [44] + PrintFields(owner, fields[1..])
  }

  /** Canonicalizing is printing the normal form. */
  lemma {:induction false} CanonicalPrintsNormal(j: Json)
    ensures Canonicalize(j) == Print(Normal(j))
    decreases j, 1
  {
    match j
    case JArray(items) => ItemsPrintNormal(j, items, Normal(j));
    case JObject(fields) => FieldsPrintNormal(j, SortByKey(fields), Normal(j));
    case _ =>
  }

  lemma {:induction false} ItemsPrintNormal(owner: Json, items: seq<Json>, target: Json)
    requires forall i :: 0 <= i < |items| ==> items[i] < owner
    requires forall i :: 0 <= i < |items| ==> NormalItems(owner, items)[i] < target
    ensures CanonicalItems(owner, items) == PrintItems(target, NormalItems(owner, items))
    decreases owner, 0, |items|
  {
    if items != [] {
      CanonicalPrintsNormal(items[0]);
      assert NormalItems(owner, items)[1..] == NormalItems(owner, items[1..]);
      ItemsPrintNormal(owner, items[1..], target);
    }
  }

  lemma {:induction false} FieldsPrintNormal(owner: Json, fields: seq<Field>, target: Json)
    requires owner.JObject? && forall f :: f in fields ==> f in owner.fields
    requires forall i :: 0 <= i < |fields| ==> NormalFields(owner, fields)[i].value < target
    ensures CanonicalFields(owner, fields) == PrintFields(target, NormalFields(owner, fields))
    decreases owner, 0, |fields|
  {
    if fields != [] {
      assert fields[0] in owner.fields;
      CanonicalPrintsNormal(fields[0].value);
      assert NormalFields(owner, fields)[1..] == NormalFields(owner, fields[1..]);
      FieldsPrintNormal(owner, fields[1..], target);
    }
  }

  // ---------------------------------------------------------------- unique decodability

  /** What can follow a value: nothing, a comma or a closing bracket. */
  predicate Delimited(x: Text) {
    x == [] || x[0] == 44 || x[0] == 93 || x[0] == 125
  }

  /** The first unit of a printed value. */
  function First(j: Json): Unit
    requires Finite(j)
  {
    match j
    case JNull => 110
    case JBool(b) => if b then 116 else 102
    case JNumber(t) => t[0]
    case JString(_) => 34
    case JArray(_) => 91
    case JObject(_) => 123
  }

  lemma PrintStarts(j: Json, x: Text)
    requires Finite(j)
    ensures (Print(j) + x) != [] && (Print(j) + x)[0] == First(j) && First(j) !in {44, 93, 125}
  {
    hide PrintItems, PrintFields, Body;
    match j
    case JNull => assert Print(j) == NULL_TEXT;
    case JBool(b) => assert Print(j) == if b then TRUE_TEXT else FALSE_TEXT;
    case JNumber(t) => assert Print(j) == t && NumberUnit(t[0]);
    case JString(s) => assert Print(j) == Quote(s) && Print(j)[0] == 34;
    case JArray(items) => assert Print(j)[0] == 91;
    case JObject(fields) => assert Print(j)[0] == 123;
  }

  lemma QuoteStarts(s: Text, x: Text)
    ensures (Quote(s) + x)[0] == 34
  {
    assert (Quote(s) + x)[0] == Quote(s)[0];
  }

  /** The first unit tells the kind of value. */
  lemma FirstTells(a: Json, b: Json)
    requires Finite(a) && Finite(b) && First(a) == First(b)
    ensures a.JNull? <==> b.JNull?
    ensures a.JBool? <==> b.JBool?
    ensures a.JBool? ==> a == b
    ensures a.JNumber? <==> b.JNumber?
    ensures a.JString? <==> b.JString?
    ensures a.JArray? <==> b.JArray?
    ensures a.JObject? <==> b.JObject?
  {
    if a.JNumber? {
      assert NumberUnit(a.text[0]);
    }
    if b.JNumber? {
      assert NumberUnit(b.text[0]);
    }
  }

  lemma UnitAfter(t: Text, u: Text, x: Text, y: Text)
    requires t + x == u + y && |t| < |u|
    ensures x != [] && x[0] == u[|t|]
  {
    assert (t + x)[|t|] == (u + y)[|t|];
  }

  lemma NumbersPrefixFree(t: Text, u: Text, x: Text, y: Text)
    requires NumberText(t) && NumberText(u) && Delimited(x) && Delimited(y)
    requires t + x == u + y
    ensures t == u && x == y
  {
    if |t| < |u| {
      UnitAfter(t, u, x, y);
    } else if |u| < |t| {
      UnitAfter(u, t, y, x);
    } else {
      Cancel(t, u, x, y);
    }
  }

  /** A bracketed text without its opening bracket. */
  lemma Unbracket(o: Unit, s: Text, t: Text, c: Unit, x: Text, y: Text)
    requires [o] + s + [c] + x == [o] + t + [c] + y
    ensures s + [c] + x == t + [c] + y
  {
    assert [o] + s + [c] + x == [o] + (s + [c] + x);
    assert [o] + t + [c] + y == [o] + (t + [c] + y);
    Cancel([o], [o], s + [c] + x, t + [c] + y);
  }

  /** Equal texts with delimited rests print equal values. */
  lemma {:induction false} PrintIsPrefixFree(a: Json, b: Json, x: Text, y: Text)
    requires Finite(a) && Finite(b) && Delimited(x) && Delimited(y)
    requires Print(a) + x == Print(b) + y
    ensures a == b && x == y
    decreases a, 1
  {
    hide Quote, Body, PrintItems, PrintFields, NumberUnit, Delimited, First;
    PrintStarts(a, x);
    PrintStarts(b, y);
    FirstTells(a, b);
    match a
    case JNull => Cancel(NULL_TEXT, NULL_TEXT, x, y);
    case JBool(_) => Cancel(Print(a), Print(a), x, y);
    case JNumber(t) => NumbersPrefixFree(t, b.text, x, y);
    case JString(s) => QuoteIsPrefixFree(s, b.s, x, y);
    case JArray(items) =>
      Unbracket(91, PrintItems(a, items), PrintItems(b, b.items), 93, x, y);
      ItemsPrefixFree(a, b, items, b.items, x, y);
    case JObject(fields) =>
      Unbracket(123, PrintFields(a, fields), PrintFields(b, b.fields), 125, x, y);
      FieldsPrefixFree(a, b, fields, b.fields, x, y);
  }

  /** What follows the first item of a list, up to and including the bracket. */
  function ItemsRest(owner: Json, items: seq<Json>, x: Text): Text
    requires items != [] && forall i :: 0 <= i < |items| ==> items[i] < owner
  {
    if |items| == 1 then [93] + x else [44] + (PrintItems(owner, items[1..]) + [93] + x)
  }

  lemma ItemsUnfold(owner: Json, items: seq<Json>, x: Text)
    requires items != [] && forall i :: 0 <= i < |items| ==> items[i] < owner
    ensures PrintItems(owner, items) + [93] + x == Print(items[0]) + ItemsRest(owner, items, x)
    ensures Delimited(ItemsRest(owner, items, x))
  {
    hide Print;
    var p := Print(items[0]);
    if |items| > 1 {
      var r := PrintItems(owner, items[1..]);
      RegroupList(p, r, x, 93);
    } else {
      assert p + [93] + x == p + ([93] + x);
    }
  }

  lemma RegroupList(p: Text, r: Text, x: Text, bracket: Unit)
    ensures p + [44] + r + [bracket] + x == p + ([44] + (r + [bracket] + x))
  {
    var tail := r + [bracket] + x;
    assert p + [44] + r + [bracket] + x == p + [44] + tail;
  }

  lemma NoItems(owner: Json, x: Text)
    ensures PrintItems(owner, []) + [93] + x == [93] + x
  {
    assert PrintItems(owner, []) == [];
  }

  lemma ItemsStart(owner: Json, items: seq<Json>, x: Text)
    requires forall i :: 0 <= i < |items| ==> items[i] < owner && Finite(items[i])
    ensures PrintItems(owner, items) + [93] + x != []
    ensures (PrintItems(owner, items) + [93] + x)[0] == 93 <==> items == []
  {
    hide Print, Finite, First, Delimited;
    if items != [] {
      ItemsUnfold(owner, items, x);
      hide PrintItems, ItemsRest;
      PrintStarts(items[0], ItemsRest(owner, items, x));
    } else {
      NoItems(owner, x);
    }
  }

  lemma {:induction false} ItemsPrefixFree(a: Json, b: Json, xs: seq<Json>, ys: seq<Json>, x: Text, y: Text)
    requires forall i :: 0 <= i < |xs| ==> xs[i] < a && Finite(xs[i])
    requires forall i :: 0 <= i < |ys| ==> ys[i] < b && Finite(ys[i])
    requires PrintItems(a, xs) + [93] + x == PrintItems(b, ys) + [93] + y
    ensures xs == ys && x == y
    decreases a, 0, |xs|
  {
    hide Print, PrintItems, Finite, Delimited;
    ItemsStart(a, xs, x);
    ItemsStart(b, ys, y);
    if xs == [] || ys == [] {
      assert xs == ys == [];
      NoItems(a, x);
      NoItems(b, y);
      Cancel([93], [93], x, y);
    } else {
      ItemsUnfold(a, xs, x);
      ItemsUnfold(b, ys, y);
      PrintIsPrefixFree(xs[0], ys[0], ItemsRest(a, xs, x), ItemsRest(b, ys, y));
      assert ItemsRest(a, xs, x)[0] == ItemsRest(b, ys, y)[0];
      if |xs| == 1 {
        Cancel([93], [93], x, y);
        assert xs == [xs[0]] && ys == [ys[0]];
      } else {
        Cancel([44], [44], PrintItems(a, xs[1..]) + [93] + x, PrintItems(b, ys[1..]) + [93] + y);
        ItemsPrefixFree(a, b, xs[1..], ys[1..], x, y);
        assert xs == [xs[0]] + xs[1..] && ys == [ys[0]] + ys[1..];
      }
    }
  }

  /** What follows the value of the first field, up to and including the bracket. */
  function FieldsRest(owner: Json, fields: seq<Field>, x: Text): Text
    requires fields != [] && forall i :: 0 <= i < |fields| ==> fields[i].value < owner
  {
    if |fields| == 1 then [125] + x else [44] + (PrintFields(owner, fields[1..]) + [125] + x)
  }

  lemma FieldsUnfold(owner: Json, fields: seq<Field>, x: Text)
    requires fields != [] && forall i :: 0 <= i < |fields| ==> fields[i].value < owner
    ensures PrintFields(owner, fields) + [125] + x
         == Quote(fields[0].key) + ([58] + (Print(fields[0].value) + FieldsRest(owner, fields, x)))
    ensures Delimited(FieldsRest(owner, fields, x))
  {
    hide Print, Quote;
    var q, p := Quote(fields[0].key), Print(fields[0].value);
    if |fields| > 1 {
      var r := PrintFields(owner, fields[1..]);
      Regroup(q, p, [44] + (r + [125] + x));
      RegroupList(q + [58] + p, r, x, 125);
    } else {
      Regroup(q, p, [125] + x);
      assert q + [58] + p + [125] + x == q + [58] + p + ([125] + x);
    }
  }

  lemma Regroup(q: Text, p: Text, r: Text)
    ensures q + [58] + p + r == q + ([58] + (p + r))
  {}

  lemma FieldsStart(owner: Json, fields: seq<Field>, x: Text)
    requires forall i :: 0 <= i < |fields| ==> fields[i].value < owner
    ensures PrintFields(owner, fields) + [125] + x != []
    ensures (PrintFields(owner, fields) + [125] + x)[0] == 125 <==> fields == []
  {
    hide Print, Quote, Delimited;
    if fields != [] {
      FieldsUnfold(owner, fields, x);
      hide PrintFields, FieldsRest;
      QuoteStarts(fields[0].key, [58] + (Print(fields[0].value) + FieldsRest(owner, fields, x)));
    } else {
      NoFields(owner, x);
    }
  }

  lemma NoFields(owner: Json, x: Text)
    ensures PrintFields(owner, []) + [125] + x == [125] + x
  {
    assert PrintFields(owner, []) == [];
  }

  lemma {:induction false} FieldsPrefixFree(a: Json, b: Json, xs: seq<Field>, ys: seq<Field>, x: Text, y: Text)
    requires forall i :: 0 <= i < |xs| ==> xs[i].value < a && Finite(xs[i].value)
    requires forall i :: 0 <= i < |ys| ==> ys[i].value < b && Finite(ys[i].value)
    requires PrintFields(a, xs) + [125] + x == PrintFields(b, ys) + [125] + y
    ensures xs == ys && x == y
    decreases a, 0, |xs|
  {
    hide Print, PrintFields, Finite, Delimited, Quote;
    FieldsStart(a, xs, x);
    FieldsStart(b, ys, y);
    if xs == [] || ys == [] {
      assert xs == ys == [];
      NoFields(a, x);
      NoFields(b, y);
      Cancel([125], [125], x, y);
    } else {
      FieldsUnfold(a, xs, x);
      FieldsUnfold(b, ys, y);
      FirstFields(a, b, xs, ys, x, y);
      assert FieldsRest(a, xs, x)[0] == FieldsRest(b, ys, y)[0];
      if |xs| == 1 {
        Cancel([125], [125], x, y);
        assert xs == [xs[0]] && ys == [ys[0]];
      } else {
        Cancel([44], [44], PrintFields(a, xs[1..]) + [125] + x, PrintFields(b, ys[1..]) + [125] + y);
        FieldsPrefixFree(a, b, xs[1..], ys[1..], x, y);
        assert xs == [xs[0]] + xs[1..] && ys == [ys[0]] + ys[1..];
      }
    }
  }

  lemma {:induction false} FirstFields(a: Json, b: Json, xs: seq<Field>, ys: seq<Field>, x: Text, y: Text)
    requires xs != [] && ys != []
    requires forall i :: 0 <= i < |xs| ==> xs[i].value < a && Finite(xs[i].value)
    requires forall i :: 0 <= i < |ys| ==> ys[i].value < b && Finite(ys[i].value)
    requires PrintFields(a, xs) + [125] + x == PrintFields(b, ys) + [125] + y
    ensures xs[0] == ys[0] && FieldsRest(a, xs, x) == FieldsRest(b, ys, y)
    decreases a, 0, 0
  {
    hide Print, PrintFields, Finite, Delimited, Quote, FieldsRest;
    FieldsUnfold(a, xs, x);
    FieldsUnfold(b, ys, y);
    var rx, ry := FieldsRest(a, xs, x), FieldsRest(b, ys, y);
    var vx, vy := Print(xs[0].value) + rx, Print(ys[0].value) + ry;
    QuoteIsPrefixFree(xs[0].key, ys[0].key, [58] + vx, [58] + vy);
    Cancel([58], [58], vx, vy);
    PrintIsPrefixFree(xs[0].value, ys[0].value, rx, ry);
  }

  // ---------------------------------------------------------------- the normal form decides sameness

  lemma {:induction false} NormalIsFinite(j: Json)
    requires Finite(j)
    ensures Finite(Normal(j))
    decreases j
  {
    match j
    case JArray(items) =>
      forall i | 0 <= i < |items|
        ensures Finite(Normal(j).items[i])
      {
        NormalIsFinite(items[i]);
      }
    case JObject(fields) =>
      var sorted := SortByKey(fields);
      SortSorts(fields);
      forall i | 0 <= i < |sorted|
        ensures Finite(Normal(j).fields[i].value)
      {
        assert sorted[i] in fields;
        NormalIsFinite(sorted[i].value);
      }
      forall i, k | 0 <= i < k < |sorted|
        ensures Normal(j).fields[i].key != Normal(j).fields[k].key
      {
        LessIsTotal(sorted[i].key, sorted[k].key);
        LessIsTotal(sorted[i].key, sorted[i].key);
      }
    case _ =>
  }

  lemma PartsParsed(j: Json)
    requires Parsed(j)
    ensures j.JArray? ==> forall i :: 0 <= i < |j.items| ==> Parsed(j.items[i])
    ensures j.JObject? ==> DistinctKeys(j.fields) && forall i :: 0 <= i < |j.fields| ==> Parsed(j.fields[i].value)
  {}

  lemma {:induction false} NormalDecides(a: Json, b: Json)
    requires Parsed(a) && Parsed(b)
    ensures Normal(a) == Normal(b) <==> Same(a, b)
    decreases a
  {
    hide Parsed, Same, Normal, HasLike;
    PartsParsed(a);
    PartsParsed(b);
    if a.JArray? && b.JArray? {
      forall i, k | 0 <= i < |a.items| && 0 <= k < |b.items|
        ensures Normal(a.items[i]) == Normal(b.items[k]) <==> Same(a.items[i], b.items[k])
      {
        NormalDecides(a.items[i], b.items[k]);
      }
      ArraysDecide(a, b);
    } else if a.JObject? && b.JObject? {
      forall i, k | 0 <= i < |a.fields| && 0 <= k < |b.fields|
        ensures Normal(a.fields[i].value) == Normal(b.fields[k].value) <==> Same(a.fields[i].value, b.fields[k].value)
      {
        NormalDecides(a.fields[i].value, b.fields[k].value);
      }
      if Same(a, b) {
        SameObjectsNormal(a, b);
      }
      if Normal(a) == Normal(b) {
        NormalObjectsSame(a, b);
      }
    } else {
      KindsDecide(a, b);
    }
  }

  lemma KindsDecide(a: Json, b: Json)
    requires !(a.JArray? && b.JArray?) && !(a.JObject? && b.JObject?)
    ensures Normal(a) == Normal(b) <==> Same(a, b)
  {
    hide HasLike, NormalItems, NormalFields, SortByKey;
    assert (a.JArray? <==> Normal(a).JArray?) && (a.JObject? <==> Normal(a).JObject?);
    assert (b.JArray? <==> Normal(b).JArray?) && (b.JObject? <==> Normal(b).JObject?);
  }

  lemma SameArrays(a: Json, b: Json)
    requires a.JArray? && b.JArray?
    ensures Same(a, b) <==> |a.items| == |b.items| && forall i :: 0 <= i < |a.items| ==> Same(a.items[i], b.items[i])
  {}

  lemma ArraysDecide(a: Json, b: Json)
    requires a.JArray? && b.JArray?
    requires forall i, k :: 0 <= i < |a.items| && 0 <= k < |b.items| ==>
               (Normal(a.items[i]) == Normal(b.items[k]) <==> Same(a.items[i], b.items[k]))
    ensures Normal(a) == Normal(b) <==> Same(a, b)
  {
    var xs, ys := NormalItems(a, a.items), NormalItems(b, b.items);
    assert Normal(a) == JArray(xs) && Normal(b) == JArray(ys);
    SameArrays(a, b);
    hide Normal, Same;
    if |xs| == |ys| {
      assert xs == ys <==> forall i :: 0 <= i < |xs| ==> xs[i] == ys[i];
      forall i | 0 <= i < |xs|
        ensures xs[i] == ys[i] <==> Same(a.items[i], b.items[i])
      {}
    }
  }

  ghost predicate ValuesDecided(a: Json, b: Json)
    requires a.JObject? && b.JObject?
  {
    forall i, k :: 0 <= i < |a.fields| && 0 <= k < |b.fields| ==>
      (Normal(a.fields[i].value) == Normal(b.fields[k].value) <==> Same(a.fields[i].value, b.fields[k].value))
  }

  lemma SameKeys(a: Json, b: Json)
    requires a.JObject? && b.JObject? && Same(a, b) && DistinctKeys(a.fields) && DistinctKeys(b.fields)
    ensures |SortByKey(a.fields)| == |SortByKey(b.fields)|
    ensures forall p :: 0 <= p < |SortByKey(a.fields)| ==> SortByKey(a.fields)[p].key == SortByKey(b.fields)[p].key
  {
    hide SortByKey, DistinctKeys, Sorted;
    var xs, ys := SortByKey(a.fields), SortByKey(b.fields);
    SortSorts(a.fields);
    SortSorts(b.fields);
    forall k
      ensures HasKey(xs, k) <==> HasKey(ys, k)
    {
      SortKeepsKeys(a.fields, k);
      SortKeepsKeys(b.fields, k);
      SameHasKey(a, b, k);
    }
    SortedKeysAgree(xs, ys);
  }

  lemma SameHasKey(a: Json, b: Json, k: Text)
    requires a.JObject? && b.JObject? && Same(a, b)
    ensures HasKey(a.fields, k) <==> HasKey(b.fields, k)
  {
    if HasKey(a.fields, k) {
      var i :| 0 <= i < |a.fields| && a.fields[i].key == k;
      assert HasLike(a.fields[i], b.fields);
    }
    if HasKey(b.fields, k) {
      var m :| 0 <= m < |b.fields| && b.fields[m].key == k;
      assert HasKey(a.fields, b.fields[m].key);
    }
  }

  /** Under distinct keys the like of a field is the one with its key. */
  lemma LikeAt(a: Json, b: Json, f: Field, g: Field)
    requires a.JObject? && b.JObject? && Same(a, b) && DistinctKeys(b.fields) && ValuesDecided(a, b)
    requires f in a.fields && g in b.fields && f.key == g.key
    ensures Normal(f.value) == Normal(g.value)
  {
    var i :| 0 <= i < |a.fields| && a.fields[i] == f;
    var m :| 0 <= m < |b.fields| && b.fields[m] == g;
    assert HasLike(a.fields[i], b.fields);
    hide Normal;
    var n :| 0 <= n < |b.fields| && b.fields[n].key == f.key && Same(f.value, b.fields[n].value);
    hide Same;
    assert n == m;
  }

  lemma SameObjectsNormal(a: Json, b: Json)
    requires a.JObject? && b.JObject? && Same(a, b) && ValuesDecided(a, b)
    requires DistinctKeys(a.fields) && DistinctKeys(b.fields)
    ensures Normal(a) == Normal(b)
  {
    var xs, ys := SortByKey(a.fields), SortByKey(b.fields);
    assert Normal(a) == JObject(NormalFields(a, xs)) && Normal(b) == JObject(NormalFields(b, ys));
    hide Same, Normal, SortByKey, ValuesDecided, DistinctKeys;
    SameKeys(a, b);
    forall p | 0 <= p < |xs|
      ensures NormalFields(a, xs)[p] == NormalFields(b, ys)[p]
    {
      assert xs[p] in a.fields && ys[p] in b.fields;
      LikeAt(a, b, xs[p], ys[p]);
    }
    assert NormalFields(a, xs) == NormalFields(b, ys);
  }

  lemma SortKeepsKeys(fields: seq<Field>, k: Text)
    ensures HasKey(SortByKey(fields), k) <==> HasKey(fields, k)
  {
    var sorted := SortByKey(fields);
    hide SortByKey;
    if HasKey(sorted, k) {
      var i :| 0 <= i < |sorted| && sorted[i].key == k;
      assert sorted[i] in fields;
    }
    if HasKey(fields, k) {
      var i :| 0 <= i < |fields| && fields[i].key == k;
      assert fields[i] in sorted;
    }
  }

  /** Each field of one object has its like in the other. */
  lemma FieldFound(a: Json, b: Json, i: nat) returns (k: nat)
    requires a.JObject? && b.JObject? && i < |a.fields| && Normal(a) == Normal(b)
    ensures k < |b.fields| && b.fields[k].key == a.fields[i].key
    ensures Normal(a.fields[i].value) == Normal(b.fields[k].value)
  {
    var xs, ys := SortByKey(a.fields), SortByKey(b.fields);
    assert a.fields[i] in xs;
    assert Normal(a) == JObject(NormalFields(a, xs)) && Normal(b) == JObject(NormalFields(b, ys));
    hide Normal, SortByKey;
    var p :| 0 <= p < |xs| && xs[p] == a.fields[i];
    assert NormalFields(a, xs)[p] == NormalFields(b, ys)[p];
    assert ys[p] in b.fields;
    k :| 0 <= k < |b.fields| && b.fields[k] == ys[p];
  }

  lemma NormalObjectsSame(a: Json, b: Json)
    requires a.JObject? && b.JObject? && ValuesDecided(a, b)
    requires Normal(a) == Normal(b)
    ensures Same(a, b)
  {
    hide Normal;
    forall i | 0 <= i < |a.fields|
      ensures HasLike(a.fields[i], b.fields)
    {
      hide Same;
      var k := FieldFound(a, b, i);
      assert Same(a.fields[i].value, b.fields[k].value);
    }
    forall k | 0 <= k < |b.fields|
      ensures HasKey(a.fields, b.fields[k].key)
    {
      hide Same;
      var i := FieldFound(b, a, k);
    }
  }

  /** Without infinities two values have the same canonical text exactly when they are equal, objects read as maps. */
  lemma FiniteTextIsFaithful(a: Json, b: Json)
    requires Finite(a) && Finite(b)
    ensures Canonicalize(a) == Canonicalize(b) <==> Same(a, b)
  {
    CanonicalPrintsNormal(a);
    CanonicalPrintsNormal(b);
    FiniteIsParsed(a);
    FiniteIsParsed(b);
    NormalDecides(a, b);
    NormalIsFinite(a);
    NormalIsFinite(b);
    if Canonicalize(a) == Canonicalize(b) {
      assert Print(Normal(a)) + [] == Print(Normal(b)) + [];
      PrintIsPrefixFree(Normal(a), Normal(b), [], []);
    }
  }

  lemma {:induction false} FiniteIsParsed(j: Json)
    requires Finite(j)
    ensures Parsed(j)
    decreases j
  {
    match j
    case JArray(items) =>
      forall i | 0 <= i < |items|
        ensures Parsed(items[i])
      {
        FiniteIsParsed(items[i]);
      }
    case JObject(fields) =>
      forall i | 0 <= i < |fields|
        ensures Parsed(fields[i].value)
      {
        FiniteIsParsed(fields[i].value);
      }
    case _ =>
  }

  // ---------------------------------------------------------------- infinities

  /** The value with `n` for each null and `i` for each infinity. */
  function Replaced(j: Json, n: Json, i: Json): Json {
    match j
    case JNull => n
    case JInfinite(_) => i
    case JArray(items) =>
      JArray(seq(|items|, k requires 0 <= k < |items| => Replaced(items[k], n, i)))
    case JObject(fields) =>
      JObject(seq(|fields|, k requires 0 <= k < |fields| =>
        Field(fields[k].key, Replaced(fields[k].value, n, i))))
    case _ => j
  }

  /** What the text says: null for every infinity. */
  function AsPrinted(j: Json): Json {
    Replaced(j, JNull, JNull)
  }

  function ReplacedFields(fields: seq<Field>, n: Json, i: Json): seq<Field> {
    seq(|fields|, k requires 0 <= k < |fields| => Field(fields[k].key, Replaced(fields[k].value, n, i)))
  }

  function ReplacedField(f: Field, n: Json, i: Json): Field {
    Field(f.key, Replaced(f.value, n, i))
  }

  lemma ReplacedMore(f: Field, fields: seq<Field>, n: Json, i: Json)
    ensures ReplacedFields([f] + fields, n, i) == [ReplacedField(f, n, i)] + ReplacedFields(fields, n, i)
  {}

  lemma {:induction false} InsertReplaced(f: Field, fields: seq<Field>, n: Json, i: Json)
    ensures Insert(ReplacedField(f, n, i), ReplacedFields(fields, n, i)) == ReplacedFields(Insert(f, fields), n, i)
    decreases |fields|
  {
    ReplacedMore(f, fields, n, i);
    if fields == [] {
      assert [f] + fields == [f];
    } else {
      var rest := fields[1..];
      assert fields == [fields[0]] + rest;
      InsertReplaced(f, rest, n, i);
      ReplacedMore(fields[0], rest, n, i);
      ReplacedMore(fields[0], Insert(f, rest), n, i);
      hide Less, Replaced, ReplacedFields;
    }
  }

  /** Sorting looks at keys only. */
  lemma {:induction false} SortReplaced(fields: seq<Field>, n: Json, i: Json)
    ensures SortByKey(ReplacedFields(fields, n, i)) == ReplacedFields(SortByKey(fields), n, i)
    decreases |fields|
  {
    if fields != [] {
      var rest := fields[1..];
      assert fields == [fields[0]] + rest;
      SortReplaced(rest, n, i);
      ReplacedMore(fields[0], rest, n, i);
      InsertReplaced(fields[0], SortByKey(rest), n, i);
      hide Insert, Replaced, ReplacedFields;
    }
  }

  /** An infinity prints as a null does. */
  lemma {:induction false} PrintsAsPrinted(j: Json)
    ensures Canonicalize(AsPrinted(j)) == Canonicalize(j)
    decreases j, 1
  {
    match j
    case JArray(items) => ItemsAsPrinted(j, items, AsPrinted(j), AsPrinted(j).items);
    case JObject(fields) =>
      var target := AsPrinted(j);
      assert target.fields == ReplacedFields(fields, JNull, JNull);
      SortReplaced(fields, JNull, JNull);
      FieldsAsPrinted(j, SortByKey(fields), target, SortByKey(target.fields));
    case _ =>
  }

  lemma {:induction false} ItemsAsPrinted(owner: Json, xs: seq<Json>, target: Json, ys: seq<Json>)
    requires |xs| == |ys| && forall k :: 0 <= k < |xs| ==> xs[k] < owner && ys[k] < target && ys[k] == AsPrinted(xs[k])
    ensures CanonicalItems(owner, xs) == CanonicalItems(target, ys)
    decreases owner, 0, |xs|
  {
    hide AsPrinted;
    if xs != [] {
      PrintsAsPrinted(xs[0]);
      ItemsAsPrinted(owner, xs[1..], target, ys[1..]);
    }
  }

  lemma {:induction false} FieldsAsPrinted(owner: Json, xs: seq<Field>, target: Json, ys: seq<Field>)
    requires owner.JObject? && forall f :: f in xs ==> f in owner.fields
    requires target.JObject? && forall f :: f in ys ==> f in target.fields
    requires |xs| == |ys| && forall k :: 0 <= k < |xs| ==> ys[k] == Field(xs[k].key, AsPrinted(xs[k].value))
    ensures CanonicalFields(owner, xs) == CanonicalFields(target, ys)
    decreases owner, 0, |xs|
  {
    hide AsPrinted, Quote;
    if xs != [] {
      assert xs[0] in owner.fields && ys[0] in target.fields;
      PrintsAsPrinted(xs[0].value);
      FieldsAsPrinted(owner, xs[1..], target, ys[1..]);
    }
  }

  lemma {:induction false} AsPrintedIsFinite(j: Json)
    requires Parsed(j)
    ensures Finite(AsPrinted(j))
    decreases j
  {
    match j
    case JArray(items) =>
      forall k | 0 <= k < |items|
        ensures Finite(AsPrinted(items[k]))
      {
        AsPrintedIsFinite(items[k]);
      }
    case JObject(fields) =>
      forall k | 0 <= k < |fields|
        ensures Finite(AsPrinted(fields[k].value))
      {
        AsPrintedIsFinite(fields[k].value);
      }
    case _ =>
  }

  /**
   * Two parsed values have the same canonical text, the preimage of the hash,
   * exactly when they are equal with objects read as maps and infinities as
   * null.
   */
  lemma CanonicalTextIsFaithful(a: Json, b: Json)
    requires Parsed(a) && Parsed(b)
    ensures Canonicalize(a) == Canonicalize(b) <==> Same(AsPrinted(a), AsPrinted(b))
  {
    PrintsAsPrinted(a);
    PrintsAsPrinted(b);
    AsPrintedIsFinite(a);
    AsPrintedIsFinite(b);
    FiniteTextIsFaithful(AsPrinted(a), AsPrinted(b));
  }

  // ---------------------------------------------------------------- which texts determine their value

  /** Neither null nor an infinity anywhere. */
  ghost predicate NullFree(j: Json) {
    match j
    case JNull => false
    case JInfinite(_) => false
    case JArray(items) => forall i :: 0 <= i < |items| ==> NullFree(items[i])
    case JObject(fields) => forall i :: 0 <= i < |fields| ==> NullFree(fields[i].value)
    case _ => true
  }

  /** What a text without null says is the value itself. */
  lemma {:induction false} NullFreeSame(a: Json, b: Json)
    requires NullFree(a) && Same(AsPrinted(a), AsPrinted(b))
    ensures Same(a, b)
    decreases a
  {
    match a
    case JArray(items) =>
      forall i | 0 <= i < |items|
        ensures Same(items[i], b.items[i])
      {
        assert Same(AsPrinted(a).items[i], AsPrinted(b).items[i]);
        NullFreeSame(items[i], b.items[i]);
      }
    case JObject(fields) =>
      forall i | 0 <= i < |fields|
        ensures HasLike(fields[i], b.fields)
      {
        assert HasLike(AsPrinted(a).fields[i], AsPrinted(b).fields);
        var k :| 0 <= k < |b.fields| && b.fields[k].key == fields[i].key &&
                 Same(AsPrinted(fields[i].value), AsPrinted(b.fields[k].value));
        NullFreeSame(fields[i].value, b.fields[k].value);
      }
      forall k | 0 <= k < |b.fields|
        ensures HasKey(fields, b.fields[k].key)
      {
        assert HasKey(AsPrinted(a).fields, AsPrinted(b).fields[k].key);
      }
    case _ =>
  }

  /** Every null an infinity, every infinity a null. */
  function Exchanged(j: Json): Json {
    Replaced(j, JInfinite(false), JNull)
  }

  lemma {:induction false} ExchangedPrints(j: Json)
    requires Parsed(j)
    ensures Parsed(Exchanged(j)) && AsPrinted(Exchanged(j)) == AsPrinted(j)
    decreases j
  {
    match j
    case JArray(items) =>
      forall k | 0 <= k < |items|
        ensures Parsed(Exchanged(items[k])) && AsPrinted(Exchanged(items[k])) == AsPrinted(items[k])
      {
        ExchangedPrints(items[k]);
      }
      assert AsPrinted(Exchanged(j)).items == AsPrinted(j).items;
    case JObject(fields) =>
      forall k | 0 <= k < |fields|
        ensures Parsed(Exchanged(fields[k].value))
        ensures AsPrinted(Exchanged(fields[k].value)) == AsPrinted(fields[k].value)
      {
        ExchangedPrints(fields[k].value);
      }
      assert AsPrinted(Exchanged(j)).fields == AsPrinted(j).fields;
    case _ =>
  }

  lemma {:induction false} ExchangedDiffers(j: Json)
    requires Parsed(j) && !NullFree(j)
    ensures !Same(j, Exchanged(j))
    decreases j
  {
    match j
    case JArray(items) =>
      var i :| 0 <= i < |items| && !NullFree(items[i]);
      ExchangedDiffers(items[i]);
    case JObject(fields) =>
      var i :| 0 <= i < |fields| && !NullFree(fields[i].value);
      ExchangedDiffers(fields[i].value);
      assert forall k :: 0 <= k < |fields| && fields[k].key == fields[i].key ==> k == i;
      assert !HasLike(fields[i], Exchanged(j).fields);
    case _ =>
  }

  /** No other parsed value has the text of `a`. */
  ghost predicate Determined(a: Json) {
    forall b :: Parsed(b) && Canonicalize(b) == Canonicalize(a) ==> Same(a, b)
  }

  /** The text of a value determines it if and only if the value holds neither null nor an infinity. */
  lemma TextDeterminesIffNullFree(a: Json)
    requires Parsed(a)
    ensures Determined(a) <==> NullFree(a)
  {
    if NullFree(a) {
      forall b | Parsed(b) && Canonicalize(b) == Canonicalize(a)
        ensures Same(a, b)
      {
        CanonicalTextIsFaithful(a, b);
        NullFreeSame(a, b);
      }
    } else {
      var b := Exchanged(a);
      ExchangedPrints(a);
      ExchangedDiffers(a);
      PrintsAsPrinted(a);
      PrintsAsPrinted(b);
    }
  }

  /** A member that overflows and one that is null give two objects one text. */
  lemma OverflowReadsAsNull(key: Text, negative: bool)
    ensures var a, b := JObject([Field(key, JInfinite(negative))]), JObject([Field(key, JNull)]);
            Parsed(a) && Parsed(b) && Canonicalize(a) == Canonicalize(b) && !Same(a, b)
  {
    var a, b := JObject([Field(key, JInfinite(negative))]), JObject([Field(key, JNull)]);
    PrintsAsPrinted(a);
    assert AsPrinted(JInfinite(negative)) == JNull;
    assert AsPrinted(a).fields == b.fields;
    assert !HasLike(a.fields[0], b.fields);
  }
}
