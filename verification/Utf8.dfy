/**
 * The length the encoder gives a printed value: surrogate pairs take four
 * bytes, a surrogate standing alone three for the replacement character.
 */
module Utf8 {
  import opened Canonical

  /**
   * A surrogate counts for half of its pair's four bytes; the printer escapes
   * the ones that stand alone.
   */
  function UnitBytes(u: Unit): nat {
    if u < 0x80 then 1 else if u < 0x800 || High(u) || Low(u) then 2 else 3
  }

  function Bytes(t: Text): nat {
    if t == [] then 0 else UnitBytes(t[0]) + Bytes(t[1..])
  }

  lemma {:induction false} BytesAdd(s: Text, t: Text)
    ensures Bytes(s + t) == Bytes(s) + Bytes(t)
    decreases |s|
  {
    if s == [] {
      assert s + t == t;
    } else {
      assert (s + t)[1..] == s[1..] + t;
      BytesAdd(s[1..], t);
    }
  }

  function EncodedLength(t: Text): nat {
    if t == [] then 0
    else if High(t[0]) && |t| > 1 && Low(t[1]) then 4 + EncodedLength(t[2..])
    else if High(t[0]) || Low(t[0]) then 3 + EncodedLength(t[1..])
    else UnitBytes(t[0]) + EncodedLength(t[1..])
  }

  /** Every surrogate stands next to its partner; `open` says that a high one went before. */
  predicate PairedAfter(t: Text, open: bool) {
    if t == [] then !open
    else if Low(t[0]) then open && PairedAfter(t[1..], false)
    else !open && PairedAfter(t[1..], High(t[0]))
  }

  predicate WellPaired(t: Text) {
    PairedAfter(t, false)
  }

  lemma {:induction false} PairedLength(t: Text)
    requires WellPaired(t)
    ensures EncodedLength(t) == Bytes(t)
    decreases |t|
  {
    if t != [] && High(t[0]) {
      assert PairedAfter(t[1..], true);
      assert t[2..] == t[1..][1..];
      PairedLength(t[2..]);
      assert Bytes(t) == UnitBytes(t[0]) + (UnitBytes(t[1]) + Bytes(t[1..][1..]));
    } else if t != [] {
      PairedLength(t[1..]);
    }
  }

  lemma {:induction false} PairedJoins(s: Text, open: bool, t: Text)
    requires PairedAfter(s, open) && WellPaired(t)
    ensures PairedAfter(s + t, open)
    decreases |s|
  {
    if s == [] {
      assert s + t == t;
    } else {
      PairedJoins(s[1..], High(s[0]), t);
      assert (s + t)[1..] == s[1..] + t;
    }
  }

  lemma {:induction false} PlainPaired(t: Text)
    requires forall i :: 0 <= i < |t| ==> !High(t[i]) && !Low(t[i])
    ensures WellPaired(t)
    decreases |t|
  {
    if t != [] {
      PlainPaired(t[1..]);
    }
  }

  /** What escaping leaves: a surrogate with its partner, or plain text. */
  lemma EscapeIsPlain(u: Unit, paired: bool)
    ensures forall c :: c in EscapeUnit(u, paired) && (High(c) || Low(c)) ==> paired && EscapeUnit(u, paired) == [u]
    ensures (High(u) || Low(u)) && paired ==> EscapeUnit(u, paired) == [u]
  {}

  /** The body of a string escapes the surrogates that stand alone. */
  lemma {:induction false} BodyPaired(s: Text, open: bool)
    requires open ==> s != [] && Low(s[0])
    ensures PairedAfter(Body(s, open), open)
    decreases |s|
  {
    if s != [] {
      var e, rest := EscapeUnit(s[0], Paired(s, open)), Body(s[1..], Opens(s));
      BodyPaired(s[1..], Opens(s));
      assert Body(s, open) == e + rest;
      EscapeIsPlain(s[0], Paired(s, open));
      hide EscapeUnit, Body;
      if Opens(s) || open {
        assert e == [s[0]] && ([s[0]] + rest)[1..] == rest;
      } else {
        PlainPaired(e);
        PairedJoins(e, false, rest);
      }
    }
  }

  lemma QuotePaired(s: Text)
    ensures WellPaired(Quote(s))
  {
    BodyPaired(s, false);
    PlainPaired([0x22]);
    hide Body;
    PairedJoins([0x22], false, Body(s, false));
    PairedJoins([0x22] + Body(s, false), false, [0x22]);
  }

  lemma BracketsPaired(open: Unit, t: Text, close: Unit)
    requires WellPaired(t) && open < 0x80 && close < 0x80
    ensures WellPaired([open] + t + [close])
  {
    PlainPaired([open]);
    PlainPaired([close]);
    PairedJoins([open], false, t);
    PairedJoins([open] + t, false, [close]);
  }

  /** Numbers are known by plain texts. */
  ghost predicate Printable(j: Json) {
    match j
    case JNumber(t) => NumberText(t)
    case JArray(items) => forall i :: 0 <= i < |items| ==> Printable(items[i])
    case JObject(fields) => forall i :: 0 <= i < |fields| ==> Printable(fields[i].value)
    case _ => true
  }

  lemma {:induction false} ParsedIsPrintable(j: Json)
    requires Parsed(j)
    ensures Printable(j)
    decreases j
  {
    match j
    case JArray(items) =>
      forall i | 0 <= i < |items|
        ensures Printable(items[i])
      {
        ParsedIsPrintable(items[i]);
      }
    case JObject(fields) =>
      forall i | 0 <= i < |fields|
        ensures Printable(fields[i].value)
      {
        ParsedIsPrintable(fields[i].value);
      }
    case _ =>
  }

  lemma {:induction false} PrintPaired(j: Json)
    requires Printable(j)
    ensures WellPaired(Print(j))
    decreases j, 1
  {
    hide WellPaired, Quote, PrintItems, PrintFields;
    match j
    case JNull => PlainPaired(NULL_TEXT);
    case JBool(b) => PlainPaired(if b then TRUE_TEXT else FALSE_TEXT);
    case JNumber(t) => PlainPaired(t);
    case JInfinite(_) => PlainPaired(NULL_TEXT);
    case JString(s) => QuotePaired(s);
    case JArray(items) =>
      ItemsPaired(j, items);
      BracketsPaired(91, PrintItems(j, items), 93);
    case JObject(fields) =>
      FieldsPaired(j, fields);
      BracketsPaired(123, PrintFields(j, fields), 125);
  }

  lemma {:induction false} ItemsPaired(owner: Json, items: seq<Json>)
    requires forall i :: 0 <= i < |items| ==> items[i] < owner && Printable(items[i])
    ensures WellPaired(PrintItems(owner, items))
    decreases owner, 0, |items|
  {
    if items == [] {
      PlainPaired([]);
    } else {
      PrintPaired(items[0]);
      ItemsPaired(owner, items[1..]);
      PlainPaired([44]);
      hide WellPaired, Print, Printable;
      PairedJoins(Print(items[0]), false, [44]);
      PairedJoins(Print(items[0]) + [44], false, PrintItems(owner, items[1..]));
    }
  }

  lemma {:induction false} FieldsPaired(owner: Json, fields: seq<Field>)
    requires forall i :: 0 <= i < |fields| ==> fields[i].value < owner && Printable(fields[i].value)
    ensures WellPaired(PrintFields(owner, fields))
    decreases owner, 0, |fields|
  {
    if fields == [] {
      PlainPaired([]);
    } else {
      var q, p := Quote(fields[0].key), Print(fields[0].value);
      QuotePaired(fields[0].key);
      PrintPaired(fields[0].value);
      FieldsPaired(owner, fields[1..]);
      PlainPaired([58]);
      PlainPaired([44]);
      hide WellPaired, Print, Printable, Quote;
      PairedJoins(q, false, [58]);
      PairedJoins(q + [58], false, p);
      PairedJoins(q + [58] + p, false, [44]);
      PairedJoins(q + [58] + p + [44], false, PrintFields(owner, fields[1..]));
    }
  }

  /** A printed value is as long in UTF-8 as its units say. */
  lemma PrintedLengthIsTrue(j: Json)
    requires Printable(j)
    ensures EncodedLength(Print(j)) == Bytes(Print(j))
  {
    PrintPaired(j);
    PairedLength(Print(j));
  }
}
