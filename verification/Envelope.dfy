/**
 * The bounded accepted-control envelope. Its text declares its own length in
 * bytes, so the length is a fixed point; the richest of four forms that fits
 * is kept.
 */
module Envelope {
  import opened Wrappers
  import opened Canonical
  import opened Utf8

  const MAX_BYTES := 16 * 1024

  // ---------------------------------------------------------------- decimal numbers

  function Decimal(n: nat): (t: Text)
    ensures t != [] && forall i :: 0 <= i < |t| ==> 48 <= t[i] <= 57
  {
    if n < 10 then [48 + n as Unit] else Decimal(n / 10) + [48 + (n % 10) as Unit]
  }

  function Digits(n: nat): nat {
    |Decimal(n)|
  }

  /** What a numeral stands for. */
  function NumeralValue(t: Text): int {
    if t == [] then 0 else NumeralValue(t[..|t| - 1]) * 10 + (t[|t| - 1] as int - 48)
  }

  /** The numeral printed for a number stands for it, without a leading zero. */
  lemma {:induction false} DecimalMeans(n: nat)
    ensures NumeralValue(Decimal(n)) == n
    ensures |Decimal(n)| > 1 ==> Decimal(n)[0] != 48
    decreases n
  {
    if n < 10 {
      assert Decimal(n)[..0] == [];
    } else {
      DecimalMeans(n / 10);
      assert Decimal(n)[..|Decimal(n)| - 1] == Decimal(n / 10);
    }
  }

  lemma {:induction false} DecimalBytes(t: Text)
    requires forall i :: 0 <= i < |t| ==> 48 <= t[i] <= 57
    ensures Bytes(t) == |t|
    decreases |t|
  {
    if t != [] {
      DecimalBytes(t[1..]);
    }
  }

  function Pow10(d: nat): nat {
    if d == 0 then 1 else 10 * Pow10(d - 1)
  }

  lemma {:induction false} PowGrows(d: nat)
    ensures Pow10(d) >= d + 1
    decreases d
  {
    if d > 0 {
      PowGrows(d - 1);
    }
  }

  lemma {:induction false} DigitsBound(n: nat, d: nat)
    requires d > 0
    ensures Digits(n) <= d <==> n < Pow10(d)
    decreases d
  {
    if n >= 10 {
      if d == 1 {
        assert Digits(n) == Digits(n / 10) + 1;
      } else {
        DigitsBound(n / 10, d - 1);
        assert n < 10 * Pow10(d - 1) <==> n / 10 < Pow10(d - 1);
      }
    } else {
      PowGrows(d - 1);
    }
  }

  lemma DigitsMonotone(m: nat, n: nat)
    requires m <= n
    ensures Digits(m) <= Digits(n)
  {
    DigitsBound(n, Digits(n));
    DigitsBound(m, Digits(n));
  }

  // ---------------------------------------------------------------- the fixed point

  /** The candidate after `k` rounds, when all but the digits takes `base` bytes. */
  function Round(base: nat, k: nat): nat {
    if k == 0 then 0 else base + Digits(Round(base, k - 1))
  }

  /** The fourth round never differs from the third. */
  lemma FourRoundsSuffice(base: nat)
    requires base > 0
    ensures Round(base, 4) == Round(base, 3)
  {
    var u1, u2, u3 := Round(base, 1), Round(base, 2), Round(base, 3);
    var d := Digits(u1);
    assert Round(base, 0) == 0 && Digits(0) == 1;
    assert u1 == base + 1 && u2 == base + d && u3 == base + Digits(u2);
    assert Round(base, 4) == base + Digits(u3);
    DigitsBound(u1, d);
    PowGrows(d);
    DigitsBound(u2 + 1, d + 1);
    DigitsMonotone(u1, u2);
    DigitsMonotone(u2, u2 + 1);
  }

  /** Four are needed: here the third round still moves. */
  lemma FourRoundsNeeded()
    ensures Round(998, 3) != Round(998, 2)
  {
    assert Round(998, 1) == 999;
    assert Digits(999) == 3 && Round(998, 2) == 1001;
    assert Digits(1001) == 4 && Round(998, 3) == 1002;
  }

  lemma {:induction false} RoundsRise(base: nat, k: nat, n: nat)
    requires n == base + Digits(n)
    ensures Round(base, k) <= n
    decreases k
  {
    if k > 0 {
      RoundsRise(base, k - 1, n);
      DigitsMonotone(Round(base, k - 1), n);
    }
  }

  // ---------------------------------------------------------------- printed objects

  function Key(s: string): Text {
    seq(|s|, i requires 0 <= i < |s| => if s[i] < 128 as char then s[i] as int as Unit else 63)
  }

  /** What a field takes, with the comma before or the brace after it. */
  function Cost(f: Field): nat {
    Bytes(Quote(f.key)) + Bytes(Print(f.value)) + 2
  }

  function Costs(fields: seq<Field>): nat {
    if fields == [] then 0 else Cost(fields[0]) + Costs(fields[1..])
  }

  lemma {:induction false} FieldsCost(owner: Json, fields: seq<Field>)
    requires forall i :: 0 <= i < |fields| ==> fields[i].value < owner
    ensures Bytes(PrintFields(owner, fields)) + (if fields == [] then 0 else 1) == Costs(fields)
    decreases |fields|
  {
    hide Print, Quote;
    if fields != [] {
      var q, p := Quote(fields[0].key), Print(fields[0].value);
      FieldsCost(owner, fields[1..]);
      OneFieldBytes(q, p);
      if |fields| > 1 {
        BytesAdd(q + [58] + p, [44]);
        BytesAdd(q + [58] + p + [44], PrintFields(owner, fields[1..]));
        assert Bytes([44]) == 1;
      }
    }
  }

  lemma OneFieldBytes(q: Text, p: Text)
    ensures Bytes(q + [58] + p) == Bytes(q) + 1 + Bytes(p)
  {
    BytesAdd(q, [58]);
    BytesAdd(q + [58], p);
    assert Bytes([58]) == 1;
  }

  /** The size of an object is the cost of its fields plus one brace. */
  lemma ObjectBytes(fields: seq<Field>)
    ensures Bytes(Print(JObject(fields))) == Costs(fields) + if fields == [] then 2 else 1
  {
    var j := JObject(fields);
    FieldsCost(j, fields);
    BytesAdd([123], PrintFields(j, fields));
    BytesAdd([123] + PrintFields(j, fields), [125]);
    assert Bytes([123]) == 1 && Bytes([125]) == 1;
  }

  lemma {:induction false} CostsAdd(xs: seq<Field>, ys: seq<Field>)
    ensures Costs(xs + ys) == Costs(xs) + Costs(ys)
    decreases |xs|
  {
    if xs == [] {
      assert xs + ys == ys;
    } else {
      assert (xs + ys)[1..] == xs[1..] + ys;
      CostsAdd(xs[1..], ys);
    }
  }

  // ---------------------------------------------------------------- measure

  const UTF8_BYTES: Text := Key("utf8_bytes")

  /** The envelope as persisted, declaring `n`. */
  function Declared(fields: seq<Field>, n: nat): Json {
    JObject(fields + [Field(UTF8_BYTES, JNumber(Decimal(n)))])
  }

  /** The bytes of the envelope that declares `n`, as the encoder counts them. */
  function Encoded(fields: seq<Field>, n: nat): nat {
    EncodedLength(Print(Declared(fields, n)))
  }

  ghost predicate AllPrintable(fields: seq<Field>) {
    forall i :: 0 <= i < |fields| ==> Printable(fields[i].value)
  }

  function Base(fields: seq<Field>): nat {
    Costs(fields) + Bytes(Quote(UTF8_BYTES)) + 3
  }

  /** All but the digits has a fixed size. */
  lemma DeclaredBytes(fields: seq<Field>, n: nat)
    requires AllPrintable(fields)
    ensures Encoded(fields, n) == Base(fields) + Digits(n)
  {
    assert Printable(Declared(fields, n));
    PrintedLengthIsTrue(Declared(fields, n));
    hide Quote, Print, EncodedLength, Printable;
    var f := Field(UTF8_BYTES, JNumber(Decimal(n)));
    ObjectBytes(fields + [f]);
    CostsAdd(fields, [f]);
    assert Costs([f]) == Cost(f);
    NumberBytes(n);
  }

  lemma NumberBytes(n: nat)
    ensures Bytes(Print(JNumber(Decimal(n)))) == Digits(n)
  {
    DecimalBytes(Decimal(n));
  }

  /** The declared length of an envelope: the least one that is true. */
  ghost predicate TrueLength(fields: seq<Field>, n: nat) {
    && n == Encoded(fields, n)
    && forall m: nat :: m == Encoded(fields, m) ==> n <= m
  }

  /** Always leaves by its equality test, whatever the size. */
  method Measure(fields: seq<Field>) returns (n: nat)
    requires AllPrintable(fields)
    ensures TrueLength(fields, n)
  {
    hide Encoded, Digits, Base;
    ghost var base := Base(fields);
    BasePositive(fields);
    FourRoundsSuffice(base);
    n := 0;
    for iteration := 0 to 4
      invariant n == Round(base, iteration)
      invariant iteration == 4 ==> Round(base, 4) != Round(base, 3)
    {
      var measured := Encoded(fields, n);
      DeclaredBytes(fields, n);
      assert measured == Round(base, iteration + 1);
      if measured == n {
        forall m: nat | m == Encoded(fields, m)
          ensures n <= m
        {
          DeclaredBytes(fields, m);
          RoundsRise(base, iteration, m);
        }
        return n;
      }
      n := measured;
    }
    assert false;
  }

  lemma BasePositive(fields: seq<Field>)
    ensures Base(fields) > 0
  {}

  // ---------------------------------------------------------------- fitEnvelope

  /** A value that parsing can give. */
  type Data = j: Json | Parsed(j) witness JNull

  /** The task of the recipient; the host's directive is always there. */
  datatype Task = Task(directive: Text, objective: Option<Text>, action: Option<Text>, context: Option<Data>)

  datatype Hints = Hints(summary: Option<Text>, reason: Option<Text>, verification: Option<Data>)

  datatype Control = Control(
    direction: Text, recipient: Text, task: Task, hints: Hints, ignored: Data, diagnostics: Option<Data>)

  function Optional(key: string, value: Option<Data>): seq<Field> {
    if value.None? then [] else [Field(Key(key), value.value)]
  }

  function OptionalText(key: string, value: Option<Text>): seq<Field> {
    if value.None? then [] else [Field(Key(key), JString(value.value))]
  }

  function TaskFields(t: Task): seq<Field> {
    [Field(Key("host_directive"), JString(t.directive))]
    + OptionalText("reported_objective", t.objective)
    + OptionalText("reported_action", t.action)
    + Optional("reported_context", t.context)
  }

  function HintFields(h: Hints): seq<Field> {
    OptionalText("summary", h.summary) + OptionalText("reason", h.reason) + Optional("verification", h.verification)
  }

  function Leading(c: Control): seq<Field> {
    [Field(Key("schema_version"), JNumber(Decimal(2))),
     Field(Key("direction"), JString(c.direction)),
     Field(Key("recipient_role"), JString(c.recipient))]
  }

  function Fields(c: Control): seq<Field> {
    Leading(c)
    + [Field(Key("task"), JObject(TaskFields(c.task)))]
    + [Field(Key("reported_hints"), JObject(HintFields(c.hints)))]
    + [Field(Key("ignored_hint_fields"), c.ignored)]
    + Optional("ignored_hint_diagnostics", c.diagnostics)
  }

  lemma KeyLength(s: string)
    ensures |Key(s)| == |s|
  {}

  /** The names of the members are told apart by their lengths and first letters. */
  lemma NamesApart()
    ensures |Key("schema_version")| == |Key("recipient_role")| == |Key("reported_hints")| == 14
    ensures |Key("direction")| == 9 && |Key("task")| == 4 && |Key("utf8_bytes")| == 10
    ensures |Key("ignored_hint_fields")| == 19 && |Key("ignored_hint_diagnostics")| == 24
    ensures Key("schema_version")[0] != Key("recipient_role")[0] == Key("reported_hints")[0]
    ensures Key("recipient_role")[2] != Key("reported_hints")[2]
  {
    assert |"schema_version"| == |"recipient_role"| == |"reported_hints"| == 14;
    KeyLength("direction");
    KeyLength("task");
    KeyLength("utf8_bytes");
    KeyLength("ignored_hint_fields");
    KeyLength("ignored_hint_diagnostics");
  }

  lemma PartNamesApart()
    ensures |Key("host_directive")| == 14 && |Key("reported_objective")| == 18
    ensures |Key("reported_action")| == 15 && |Key("reported_context")| == 16
    ensures |Key("summary")| == 7 && |Key("reason")| == 6 && |Key("verification")| == 12
  {
    KeyLength("host_directive");
    KeyLength("reported_objective");
    KeyLength("reported_action");
    KeyLength("reported_context");
    KeyLength("summary");
    KeyLength("reason");
    KeyLength("verification");
  }

  /** Under the name `key` the members hold exactly this value; none when there is no such member. */
  predicate Says(fields: seq<Field>, key: string, value: Option<Json>) {
    && (value.Some? ==> Field(Key(key), value.value) in fields)
    && (forall f :: f in fields && f.key == Key(key) ==> Some(f.value) == value)
  }

  function TextOf(t: Option<Text>): Option<Json> {
    if t.Some? then Some(JString(t.value)) else None
  }

  lemma SaysJoins(xs: seq<Field>, ys: seq<Field>, key: string, value: Option<Json>)
    requires (Says(xs, key, value) && Says(ys, key, None)) || (Says(xs, key, None) && Says(ys, key, value))
    ensures Says(xs + ys, key, value)
  {
    assert forall f :: f in xs + ys <==> f in xs || f in ys;
    hide Key;
  }

  /** The members of a task, by name. */
  lemma TaskSays(t: Task)
    ensures var all := TaskFields(t);
            && Says(all, "host_directive", Some(JString(t.directive)))
            && Says(all, "reported_objective", TextOf(t.objective))
            && Says(all, "reported_action", TextOf(t.action))
            && Says(all, "reported_context", t.context)
  {
    PartNamesApart();
    hide Key;
  }

  /** The members of the hints, by name. */
  lemma HintsSay(h: Hints)
    ensures var all := HintFields(h);
            && Says(all, "summary", TextOf(h.summary))
            && Says(all, "reason", TextOf(h.reason))
            && Says(all, "verification", h.verification)
  {
    PartNamesApart();
    hide Key;
  }

  /** All but the leading members. */
  function Trailing(c: Control, n: nat): seq<Field> {
    [Field(Key("task"), JObject(TaskFields(c.task)))]
    + [Field(Key("reported_hints"), JObject(HintFields(c.hints)))]
    + [Field(Key("ignored_hint_fields"), c.ignored)]
    + Optional("ignored_hint_diagnostics", c.diagnostics)
    + [Field(UTF8_BYTES, JNumber(Decimal(n)))]
  }

  lemma LeadingSays(c: Control)
    ensures var all := Leading(c);
            && Says(all, "schema_version", Some(JNumber(Decimal(2))))
            && Says(all, "direction", Some(JString(c.direction)))
            && Says(all, "recipient_role", Some(JString(c.recipient)))
            && Says(all, "task", None) && Says(all, "reported_hints", None)
            && Says(all, "ignored_hint_fields", None) && Says(all, "ignored_hint_diagnostics", None)
            && Says(all, "utf8_bytes", None)
  {
    NamesApart();
    hide Key, Decimal;
  }

  lemma TrailingMembers(c: Control, n: nat)
    ensures forall f :: f in Trailing(c, n) <==>
              || f == Field(Key("task"), JObject(TaskFields(c.task)))
              || f == Field(Key("reported_hints"), JObject(HintFields(c.hints)))
              || f == Field(Key("ignored_hint_fields"), c.ignored)
              || (c.diagnostics.Some? && f == Field(Key("ignored_hint_diagnostics"), c.diagnostics.value))
              || f == Field(Key("utf8_bytes"), JNumber(Decimal(n)))
  {
    hide Key, TaskFields, HintFields, Decimal;
  }

  lemma TrailingLacks(c: Control, n: nat)
    ensures var all := Trailing(c, n);
            Says(all, "schema_version", None) && Says(all, "direction", None) && Says(all, "recipient_role", None)
  {
    TrailingMembers(c, n);
    NamesApart();
    hide Key, TaskFields, HintFields, Decimal, Trailing;
  }

  lemma TrailingSays(c: Control, n: nat)
    ensures var all := Trailing(c, n);
            && Says(all, "task", Some(JObject(TaskFields(c.task))))
            && Says(all, "reported_hints", Some(JObject(HintFields(c.hints))))
            && Says(all, "ignored_hint_fields", Some(c.ignored))
            && Says(all, "ignored_hint_diagnostics", c.diagnostics)
            && Says(all, "utf8_bytes", Some(JNumber(Decimal(n))))
  {
    TrailingMembers(c, n);
    NamesApart();
    hide Key, TaskFields, HintFields, Decimal, Trailing;
  }

  /** The members of an envelope, by name. */
  lemma EnvelopeSays(c: Control, n: nat)
    ensures var all := Declared(Fields(c), n).fields;
            && Says(all, "schema_version", Some(JNumber(Decimal(2))))
            && Says(all, "direction", Some(JString(c.direction)))
            && Says(all, "recipient_role", Some(JString(c.recipient)))
            && Says(all, "task", Some(JObject(TaskFields(c.task))))
            && Says(all, "reported_hints", Some(JObject(HintFields(c.hints))))
            && Says(all, "ignored_hint_fields", Some(c.ignored))
            && Says(all, "ignored_hint_diagnostics", c.diagnostics)
            && Says(all, "utf8_bytes", Some(JNumber(Decimal(n))))
  {
    NamesApart();
    hide Key, TaskFields, HintFields, Decimal, Leading, Says;
    var rest := Trailing(c, n);
    assert Declared(Fields(c), n).fields == Leading(c) + rest;
    TrailingLacks(c, n);
    TrailingSays(c, n);
    LeadingSays(c);
    SaysJoins(Leading(c), rest, "schema_version", Some(JNumber(Decimal(2))));
    SaysJoins(Leading(c), rest, "direction", Some(JString(c.direction)));
    SaysJoins(Leading(c), rest, "recipient_role", Some(JString(c.recipient)));
    SaysJoins(Leading(c), rest, "task", Some(JObject(TaskFields(c.task))));
    SaysJoins(Leading(c), rest, "reported_hints", Some(JObject(HintFields(c.hints))));
    SaysJoins(Leading(c), rest, "ignored_hint_fields", Some(c.ignored));
    SaysJoins(Leading(c), rest, "ignored_hint_diagnostics", c.diagnostics);
    SaysJoins(Leading(c), rest, "utf8_bytes", Some(JNumber(Decimal(n))));
  }

  /** Everything the host puts into a control can be printed. */
  lemma ControlPrintable(c: Control)
    ensures AllPrintable(Fields(c))
  {
    DataPrintable(c.task.context);
    DataPrintable(c.hints.verification);
    DataPrintable(c.diagnostics);
    ParsedIsPrintable(c.ignored);
    assert AllPrintable(TaskFields(c.task)) && AllPrintable(HintFields(c.hints));
    hide TaskFields, HintFields, Optional;
    assert AllPrintable(Leading(c));
  }

  lemma DataPrintable(value: Option<Data>)
    ensures value.Some? ==> Printable(value.value)
  {
    if value.Some? {
      ParsedIsPrintable(value.value);
    }
  }

  function WithoutContext(c: Control): Control {
    c.(task := c.task.(context := None))
  }

  function OnlyReason(c: Control): Control {
    c.(hints := Hints(None, c.hints.reason, None))
  }

  function WithoutDiagnostics(c: Control): Control {
    c.(diagnostics := None)
  }

  /** The four forms, richest first: all, no context, of the hints only the reason, no diagnostics. */
  function Form(c: Control, k: nat): Control
    requires k < 4
  {
    if k == 0 then c
    else if k == 1 then WithoutContext(c)
    else if k == 2 then OnlyReason(WithoutContext(c))
    else WithoutDiagnostics(OnlyReason(WithoutContext(c)))
  }

  /** What form `k` of a control says: the directive, the reported task and the reason are never given up. */
  predicate Keeps(c: Control, k: nat, form: Control) {
    && form.direction == c.direction && form.recipient == c.recipient && form.ignored == c.ignored
    && form.task.directive == c.task.directive && form.task.objective == c.task.objective
    && form.task.action == c.task.action && form.hints.reason == c.hints.reason
    && form.task.context == (if k < 1 then c.task.context else None)
    && form.hints.summary == (if k < 2 then c.hints.summary else None)
    && form.hints.verification == (if k < 2 then c.hints.verification else None)
    && form.diagnostics == (if k < 3 then c.diagnostics else None)
  }

  ghost predicate Fits(c: Control) {
    exists n: nat :: TrueLength(Fields(c), n) && n <= 16_384
  }

  /** No richer form fits. */
  ghost predicate FirstFit(c: Control, k: nat) {
    k < 4 && Fits(Form(c, k)) && forall j: nat :: j < k ==> !Fits(Form(c, j))
  }

  datatype Bounded = Bounded(control: Control, utf8Bytes: nat)

  /**
   * The first form that fits, with its true length; nothing exactly when the
   * poorest form is too long.
   */
  method FitEnvelope(c: Control) returns (r: Option<Bounded>)
    ensures r.Some? ==> r.value.utf8Bytes <= MAX_BYTES && TrueLength(Fields(r.value.control), r.value.utf8Bytes)
    ensures r.Some? ==> exists k :: FirstFit(c, k) && r.value.control == Form(c, k) && Keeps(c, k, r.value.control)
    ensures r.None? <==> !Fits(Form(c, 3))
  {
    hide TrueLength, Fields, Fits;
    ControlPrintable(c);
    var first := Measure(Fields(c));
    LengthDecidesFit(Form(c, 0), first);
    if first <= MAX_BYTES {
      assert FirstFit(c, 0);
      PoorerFormsFit(c, 0, 3);
      return Some(Bounded(c, first));
    }
    var withoutContext := WithoutContext(c);
    ControlPrintable(withoutContext);
    var second := Measure(Fields(withoutContext));
    LengthDecidesFit(Form(c, 1), second);
    if second <= MAX_BYTES {
      assert FirstFit(c, 1);
      PoorerFormsFit(c, 1, 3);
      return Some(Bounded(withoutContext, second));
    }
    var withoutOptionalHints := OnlyReason(withoutContext);
    ControlPrintable(withoutOptionalHints);
    var third := Measure(Fields(withoutOptionalHints));
    LengthDecidesFit(Form(c, 2), third);
    if third <= MAX_BYTES {
      assert FirstFit(c, 2);
      PoorerFormsFit(c, 2, 3);
      return Some(Bounded(withoutOptionalHints, third));
    }
    var withoutDiagnostics := WithoutDiagnostics(withoutOptionalHints);
    ControlPrintable(withoutDiagnostics);
    var fourth := Measure(Fields(withoutDiagnostics));
    LengthDecidesFit(Form(c, 3), fourth);
    if fourth <= MAX_BYTES {
      assert FirstFit(c, 3);
      return Some(Bounded(withoutDiagnostics, fourth));
    }
    r := None;
  }

  lemma LengthDecidesFit(c: Control, n: nat)
    requires TrueLength(Fields(c), n)
    ensures Fits(c) <==> n <= MAX_BYTES
  {}

  // ---------------------------------------------------------------- poorer forms are shorter

  /** Without its context a task is no longer. */
  lemma TaskShrinks(t: Task)
    ensures Bytes(Print(JObject(TaskFields(t.(context := None))))) <= Bytes(Print(JObject(TaskFields(t))))
  {
    hide Print, Quote, Bytes;
    ObjectBytes(TaskFields(t));
    ObjectBytes(TaskFields(t.(context := None)));
    var lead := [Field(Key("host_directive"), JString(t.directive))]
                + OptionalText("reported_objective", t.objective) + OptionalText("reported_action", t.action);
    CostsAdd(lead, Optional("reported_context", t.context));
    CostsAdd(lead, []);
  }

  /** Only the reason: no longer than all hints. */
  lemma HintsShrink(h: Hints)
    ensures Bytes(Print(JObject(HintFields(Hints(None, h.reason, None))))) <= Bytes(Print(JObject(HintFields(h))))
  {
    hide Print, Quote, Bytes;
    var few := HintFields(Hints(None, h.reason, None));
    var s, r := OptionalText("summary", h.summary), OptionalText("reason", h.reason);
    var v := Optional("verification", h.verification);
    ObjectBytes(HintFields(h));
    ObjectBytes(few);
    assert few == r;
    CostsAdd(s + r, v);
    CostsAdd(s, r);
    CostAtLeastTwo(s + r + v);
  }

  lemma CostAtLeastTwo(fields: seq<Field>)
    ensures fields != [] ==> Costs(fields) >= 2
  {}

  lemma FieldsSum(c: Control)
    ensures Costs(Fields(c)) == Costs(Leading(c))
                              + Cost(Field(Key("task"), JObject(TaskFields(c.task))))
                              + Cost(Field(Key("reported_hints"), JObject(HintFields(c.hints))))
                              + Cost(Field(Key("ignored_hint_fields"), c.ignored))
                              + Costs(Optional("ignored_hint_diagnostics", c.diagnostics))
  {
    hide Print, Quote, Bytes, Cost;
    var t := [Field(Key("task"), JObject(TaskFields(c.task)))];
    var h := [Field(Key("reported_hints"), JObject(HintFields(c.hints)))];
    var i := [Field(Key("ignored_hint_fields"), c.ignored)];
    var d := Optional("ignored_hint_diagnostics", c.diagnostics);
    CostsAdd(Leading(c) + t + h + i, d);
    CostsAdd(Leading(c) + t + h, i);
    CostsAdd(Leading(c) + t, h);
    CostsAdd(Leading(c), t);
    OneCost(t[0]);
    OneCost(h[0]);
    OneCost(i[0]);
  }

  lemma OneCost(f: Field)
    ensures Costs([f]) == Cost(f)
  {
    assert Costs([f][1..]) == 0;
  }

  lemma FormShrinks(c: Control, k: nat)
    requires 0 < k < 4
    ensures Costs(Fields(Form(c, k))) <= Costs(Fields(Form(c, k - 1)))
  {
    hide Print, Quote, Bytes, Fields, TaskFields, HintFields;
    FieldsSum(Form(c, k));
    FieldsSum(Form(c, k - 1));
    TaskShrinks(c.task);
    HintsShrink(c.hints);
  }

  /** True lengths follow the size of the rest. */
  lemma LengthFollowsCosts(xs: seq<Field>, ys: seq<Field>, m: nat, n: nat)
    requires AllPrintable(xs) && AllPrintable(ys)
    requires Costs(xs) <= Costs(ys) && TrueLength(xs, m) && TrueLength(ys, n)
    ensures m <= n
  {
    hide Encoded, Digits, AllPrintable;
    DeclaredBytes(ys, n);
    var k := FixedPointBelow(xs, n);
  }

  lemma FixedPointBelow(xs: seq<Field>, n: nat) returns (k: nat)
    requires AllPrintable(xs) && n >= Base(xs) + Digits(n)
    ensures k <= n && k == Encoded(xs, k)
  {
    hide Encoded, Digits, AllPrintable;
    var base := Base(xs);
    BasePositive(xs);
    FourRoundsSuffice(base);
    RoundsBelow(base, 3, n);
    k := Round(base, 3);
    DeclaredBytes(xs, k);
  }

  lemma {:induction false} RoundsBelow(base: nat, k: nat, n: nat)
    requires n >= base + Digits(n)
    ensures Round(base, k) <= n
    decreases k
  {
    if k > 0 {
      RoundsBelow(base, k - 1, n);
      DigitsMonotone(Round(base, k - 1), n);
    }
  }

  /** A form fits whenever a richer one does, so refusing means the poorest is too long. */
  lemma {:induction false} PoorerFormsFit(c: Control, j: nat, k: nat)
    requires j <= k < 4 && Fits(Form(c, j))
    ensures Fits(Form(c, k))
    decreases k
  {
    hide TrueLength, Fields, Costs;
    if j < k {
      PoorerFormsFit(c, j, k - 1);
      var n: nat :| TrueLength(Fields(Form(c, k - 1)), n) && n <= MAX_BYTES;
      ControlPrintable(Form(c, k));
      ControlPrintable(Form(c, k - 1));
      var m := HasLength(Fields(Form(c, k)));
      FormShrinks(c, k);
      LengthFollowsCosts(Fields(Form(c, k)), Fields(Form(c, k - 1)), m, n);
    }
  }

  lemma HasLength(fields: seq<Field>) returns (n: nat)
    requires AllPrintable(fields)
    ensures TrueLength(fields, n)
  {
    hide Encoded, Digits, AllPrintable;
    var base := Base(fields);
    BasePositive(fields);
    FourRoundsSuffice(base);
    n := Round(base, 3);
    DeclaredBytes(fields, n);
    forall m: nat | m == Encoded(fields, m)
      ensures n <= m
    {
      DeclaredBytes(fields, m);
      RoundsRise(base, 3, m);
    }
  }
}
