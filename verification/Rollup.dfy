/**
 * The usage roll-up of one run: totals per run, role, model, subagent and
 * completion protocol over terminal records and unsettled compaction charges.
 */
module Rollup {
  import opened Wrappers
  import opened Usage
  import opened Compaction

  const SYSTEM_DEFAULT := "<system-default>"

  // ---------------------------------------------------------------- what the records say

  datatype Cut =
    | Everything
    | Parents
    | Children
    | ByRole(role: string)
    | ByModel(model: string)
    | BySubagent(subagent: string)
    | ByProtocol(protocol: Protocol)

  function ModelKey(model: Option<string>): string {
    if model.Some? then model.value else SYSTEM_DEFAULT
  }

  function ProtocolOf(evidence: Option<Protocol>): Protocol {
    if evidence.Some? then evidence.value else ReportResult
  }

  predicate Counted(r: Record, run: string) {
    (r.Terminal? || r.SubagentTerminal?) && r.run == run && r.used.Some?
  }

  predicate InCut(r: Record, run: string, cut: Cut) {
    Counted(r, run) &&
    match cut
    case Everything => true
    case Parents => r.Terminal?
    case Children => r.SubagentTerminal?
    case ByRole(role) => r.Terminal? && r.role == role
    case ByModel(model) =>
      if r.Terminal? then r.model == Some(model) || (r.model.None? && model == "<system-default>")
      else r.childModel == model
    case BySubagent(subagent) => r.SubagentTerminal? && r.subagent == subagent
    case ByProtocol(protocol) =>
      r.SubagentTerminal? && (r.evidence == Some(protocol) || (r.evidence.None? && protocol == ReportResult))
  }

  /** The terminals of a cut among the first `n` records, each one session. */
  function TerminalSum(records: seq<Record>, run: string, cut: Cut, n: nat): Amount
    requires n <= |records|
  {
    if n == 0 then ZERO
    else
      var before := TerminalSum(records, run, cut, n - 1);
      if InCut(records[n - 1], run, cut) then Plus(before, records[n - 1].used.value.(sessions := 1)) else before
  }

  // ---------------------------------------------------------------- the first pass

  datatype Rolled = Rolled(
    perRun: Amount, perRole: Table<string>, perModel: Table<string>,
    perSubagent: Table<string>, perProtocol: Table<Protocol>)

  ghost predicate Rolls(records: seq<Record>, run: string, n: nat, r: Rolled)
    requires n <= |records|
  {
    && r.perRun == TerminalSum(records, run, Everything, n)
    && (forall role :: Get(r.perRole, role) == TerminalSum(records, run, ByRole(role), n))
    && (forall model :: Get(r.perModel, model) == TerminalSum(records, run, ByModel(model), n))
    && (forall s :: Get(r.perSubagent, s) == TerminalSum(records, run, BySubagent(s), n))
    && (forall p :: Get(r.perProtocol, p) == TerminalSum(records, run, ByProtocol(p), n))
  }

  /** No amount is lost or counted twice between the tables. */
  ghost predicate Conserves(r: Rolled) {
    && r.perRun == Sum(r.perModel)
    && r.perRun == Plus(Sum(r.perRole), Sum(r.perSubagent))
    && Sum(r.perProtocol) == Sum(r.perSubagent)
  }

  function AddParent(r: Rolled, t: Record): Rolled
    requires t.Terminal? && t.used.Some?
  {
    var u := t.used.value.(sessions := 1);
    r.(perRun := Plus(r.perRun, u), perRole := AddTo(r.perRole, t.role, u),
       perModel := AddTo(r.perModel, ModelKey(t.model), u))
  }

  function AddChild(r: Rolled, t: Record): Rolled
    requires t.SubagentTerminal? && t.used.Some?
  {
    var u := t.used.value.(sessions := 1);
    r.(perRun := Plus(r.perRun, u), perSubagent := AddTo(r.perSubagent, t.subagent, u),
       perModel := AddTo(r.perModel, t.childModel, u), perProtocol := AddTo(r.perProtocol, ProtocolOf(t.evidence), u))
  }

  lemma ParentConserves(r: Rolled, t: Record)
    requires t.Terminal? && t.used.Some? && Conserves(r)
    ensures Conserves(AddParent(r, t))
  {
    hide Plus, AddTo, ModelKey, Sum;
    var u := t.used.value.(sessions := 1);
    SumAdds(r.perRole, t.role, u);
    SumAdds(r.perModel, ModelKey(t.model), u);
    Shift(Sum(r.perRole), Sum(r.perSubagent), u);
  }

  lemma Shift(a: Amount, b: Amount, u: Amount)
    ensures Plus(Plus(a, b), u) == Plus(Plus(a, u), b)
    ensures Plus(Plus(a, b), u) == Plus(a, Plus(b, u))
  {}

  lemma ChildConserves(r: Rolled, t: Record)
    requires t.SubagentTerminal? && t.used.Some? && Conserves(r)
    ensures Conserves(AddChild(r, t))
  {
    hide Plus, AddTo, ProtocolOf, Sum;
    var u := t.used.value.(sessions := 1);
    SumAdds(r.perSubagent, t.subagent, u);
    SumAdds(r.perModel, t.childModel, u);
    SumAdds(r.perProtocol, ProtocolOf(t.evidence), u);
    Shift(Sum(r.perRole), Sum(r.perSubagent), u);
  }

  lemma ParentRolls(records: seq<Record>, run: string, n: nat, r: Rolled)
    requires n < |records| && Rolls(records, run, n, r) && Counted(records[n], run) && records[n].Terminal?
    ensures Rolls(records, run, n + 1, AddParent(r, records[n]))
  {
    var t := records[n];
    var u := t.used.value.(sessions := 1);
    forall role
      ensures Get(AddTo(r.perRole, t.role, u), role) == TerminalSum(records, run, ByRole(role), n + 1)
    {
      GetAfterAdd(r.perRole, t.role, u, role);
    }
    forall model
      ensures Get(AddTo(r.perModel, ModelKey(t.model), u), model) == TerminalSum(records, run, ByModel(model), n + 1)
    {
      GetAfterAdd(r.perModel, ModelKey(t.model), u, model);
    }
  }

  lemma ChildRolls(records: seq<Record>, run: string, n: nat, r: Rolled)
    requires n < |records| && Rolls(records, run, n, r) && Counted(records[n], run) && records[n].SubagentTerminal?
    ensures Rolls(records, run, n + 1, AddChild(r, records[n]))
  {
    var t := records[n];
    var u := t.used.value.(sessions := 1);
    forall s
      ensures Get(AddTo(r.perSubagent, t.subagent, u), s) == TerminalSum(records, run, BySubagent(s), n + 1)
    {
      GetAfterAdd(r.perSubagent, t.subagent, u, s);
    }
    forall model
      ensures Get(AddTo(r.perModel, t.childModel, u), model) == TerminalSum(records, run, ByModel(model), n + 1)
    {
      GetAfterAdd(r.perModel, t.childModel, u, model);
    }
    forall p
      ensures Get(AddTo(r.perProtocol, ProtocolOf(t.evidence), u), p) == TerminalSum(records, run, ByProtocol(p), n + 1)
    {
      GetAfterAdd(r.perProtocol, ProtocolOf(t.evidence), u, p);
    }
  }

  lemma OthersRoll(records: seq<Record>, run: string, n: nat, r: Rolled)
    requires n < |records| && Rolls(records, run, n, r) && !Counted(records[n], run)
    ensures Rolls(records, run, n + 1, r)
  {}

  method RollTerminals(records: seq<Record>, run: string) returns (r: Rolled)
    ensures Rolls(records, run, |records|, r) && Conserves(r)
  {
    hide Rolls, Conserves;
    r := Rolled(ZERO, map[], map[], map[], map[]);
    EmptyRolls(records, run);
    for i := 0 to |records|
      invariant Rolls(records, run, i, r) && Conserves(r)
    {
      var record := records[i];
      if record.SubagentTerminal? && record.run == run && record.used.Some? {
        ChildRolls(records, run, i, r);
        ChildConserves(r, record);
        r := AddChild(r, record);
      } else if record.Terminal? && record.run == run && record.used.Some? {
        ParentRolls(records, run, i, r);
        ParentConserves(r, record);
        r := AddParent(r, record);
      } else {
        OthersRoll(records, run, i, r);
      }
    }
  }

  lemma EmptyRolls(records: seq<Record>, run: string)
    ensures Rolls(records, run, 0, Rolled(ZERO, map[], map[], map[], map[]))
    ensures Conserves(Rolled(ZERO, map[], map[], map[], map[]))
  {}

  // ---------------------------------------------------------------- adding the unsettled charges

  lemma Moves(a: Amount, u: Amount, b: Amount)
    ensures Plus(Plus(a, u), b) == Plus(a, Plus(u, b))
    ensures Plus(Plus(a, u), Plus(ZERO, b)) == Plus(a, Plus(u, b))
    ensures Plus(Plus(a, u), Plus(b, ZERO)) == Plus(a, Plus(b, u))
    ensures Plus(Plus(a, u), ZERO) == Plus(a, u)
  {}

  lemma GetWithout<K>(m: Table<K>, k: K, j: K)
    ensures Get(m - {k}, j) == if j == k then ZERO else Get(m, j)
  {}

  /** Moving one entry from `left` to `r` keeps their sum. */
  lemma SumMoves<K>(r: Table<string>, row: string, left: Table<K>, k: K)
    requires k in left
    ensures Plus(Sum(AddTo(r, row, left[k])), Sum(left - {k})) == Plus(Sum(r), Sum(left))
  {
    SumTakes(left, k);
    SumAdds(r, row, left[k]);
    Moves(Sum(r), left[k], Sum(left - {k}));
  }

  lemma RowMoves(r: Table<string>, left: Table<string>, k: string, row: string)
    requires k in left
    ensures Plus(Get(AddTo(r, k, left[k]), row), Get(left - {k}, row)) == Plus(Get(r, row), Get(left, row))
  {
    GetAfterAdd(r, k, left[k], row);
    GetWithout(left, k, row);
    assert Get(left, k) == left[k];
    hide Get, AddTo, Plus;
    if k == row {
      Moves(Get(r, row), left[k], ZERO);
    }
  }

  method AddByRole(table: Table<string>, charges: Table<string>) returns (r: Table<string>)
    ensures Sum(r) == Plus(Sum(table), Sum(charges))
    ensures forall k :: Get(r, k) == Plus(Get(table, k), Get(charges, k))
  {
    hide Plus, AddTo, Sum;
    r := table;
    var left := charges;
    while left != map[]
      invariant Plus(Sum(r), Sum(left)) == Plus(Sum(table), Sum(charges))
      invariant forall k :: Plus(Get(r, k), Get(left, k)) == Plus(Get(table, k), Get(charges, k))
      decreases |left|
    {
      var role: string :| role in left;
      forall row
        ensures Plus(Get(AddTo(r, role, left[role]), row), Get(left - {role}, row)) == Plus(Get(r, row), Get(left, row))
      {
        RowMoves(r, left, role, row);
      }
      SumMoves(r, role, left, role);
      r := AddTo(r, role, left[role]);
      left := left - {role};
    }
    EmptySum<string>();
    PlusZero();
  }

  lemma EmptySum<K>()
    ensures Sum<K>(map[]) == ZERO
  {}

  lemma PlusZero()
    ensures forall a :: Plus(a, ZERO) == a
  {}

  /** What the charges by model give a row of the roll-up. */
  function RowOf(charges: Table<Option<string>>, row: string): Amount {
    Plus(Get(charges, Some(row)), if row == SYSTEM_DEFAULT then Get(charges, None) else ZERO)
  }

  lemma ModelRowMoves(r: Table<string>, left: Table<Option<string>>, m: Option<string>, row: string)
    requires m in left
    ensures Plus(Get(AddTo(r, ModelKey(m), left[m]), row), RowOf(left - {m}, row))
         == Plus(Get(r, row), RowOf(left, row))
  {
    GetAfterAdd(r, ModelKey(m), left[m], row);
    GetWithout(left, m, Some(row));
    GetWithout(left, m, None);
    assert Get(left, m) == left[m];
    hide Get, AddTo, Plus;
    if m == Some(row) {
      Moves(Get(r, row), left[m], if row == SYSTEM_DEFAULT then Get(left, None) else ZERO);
    } else if ModelKey(m) == row {
      Moves(Get(r, row), left[m], Get(left, Some(row)));
    }
  }

  method AddByModel(table: Table<string>, charges: Table<Option<string>>) returns (r: Table<string>)
    ensures Sum(r) == Plus(Sum(table), Sum(charges))
    ensures forall row :: Get(r, row) == Plus(Get(table, row), RowOf(charges, row))
  {
    hide Plus, AddTo, Sum, RowOf, ModelKey;
    r := table;
    var left := charges;
    while left != map[]
      invariant Plus(Sum(r), Sum(left)) == Plus(Sum(table), Sum(charges))
      invariant forall row :: Plus(Get(r, row), RowOf(left, row)) == Plus(Get(table, row), RowOf(charges, row))
      decreases |left|
    {
      var model: Option<string> :| model in left;
      forall row
        ensures Plus(Get(AddTo(r, ModelKey(model), left[model]), row), RowOf(left - {model}, row))
             == Plus(Get(r, row), RowOf(left, row))
      {
        ModelRowMoves(r, left, model, row);
      }
      SumMoves(r, ModelKey(model), left, model);
      r := AddTo(r, ModelKey(model), left[model]);
      left := left - {model};
    }
    EmptySum<Option<string>>();
    EmptyRows();
    PlusZero();
  }

  lemma EmptyRows()
    ensures forall row :: RowOf(map[], row) == ZERO
  {}

  // ---------------------------------------------------------------- rollup

  /** Whether the run has compaction records at all. */
  ghost predicate CompactionRecord(r: Record, run: string) {
    (r.Compacted? || r.CompactionStarted?) && r.run == run
  }

  ghost predicate HasCompaction(records: seq<Record>, run: string) {
    exists i :: 0 <= i < |records| && CompactionRecord(records[i], run)
  }

  datatype Report = Report(rolled: Rolled, overhead: Amount, context: Option<seq<Unknown>>)

  ghost function Charged(records: seq<Record>, run: string, live: set<string>, select: Select): Amount {
    SumOf(records, run, live, select, |records|)
  }

  ghost function Used(records: seq<Record>, run: string, cut: Cut): Amount {
    TerminalSum(records, run, cut, |records|)
  }

  /** Everything spent: terminals and open charges. */
  ghost function RunTotal(records: seq<Record>, run: string, live: set<string>): Amount {
    Plus(Used(records, run, Everything), Charged(records, run, live, All))
  }

  ghost function RoleRow(records: seq<Record>, run: string, live: set<string>, role: string): Amount {
    Plus(Used(records, run, ByRole(role)), Charged(records, run, live, OfRole(role)))
  }

  /** The charges of sessions on the system default share the sentinel's row. */
  ghost function ModelCharges(records: seq<Record>, run: string, live: set<string>, row: string): Amount {
    Plus(Charged(records, run, live, OfModel(Some(row))),
         if row == SYSTEM_DEFAULT then Charged(records, run, live, OfModel(None)) else ZERO)
  }

  ghost function ModelRow(records: seq<Record>, run: string, live: set<string>, row: string): Amount {
    Plus(Used(records, run, ByModel(row)), ModelCharges(records, run, live, row))
  }

  /** Every row is the sum of its own records. */
  ghost predicate RowsMean(records: seq<Record>, run: string, live: set<string>, r: Rolled) {
    && r.perRun == RunTotal(records, run, live)
    && (forall role :: Get(r.perRole, role) == RoleRow(records, run, live, role))
    && (forall row :: Get(r.perModel, row) == ModelRow(records, run, live, row))
    && (forall s :: Get(r.perSubagent, s) == Used(records, run, BySubagent(s)))
    && (forall p :: Get(r.perProtocol, p) == Used(records, run, ByProtocol(p)))
  }

  /** The rows mean what they say, add up to the run, and name what is unknown. */
  ghost predicate Reports(records: seq<Record>, run: string, live: set<string>, orchestrator: string, r: Report) {
    && RowsMean(records, run, live, r.rolled)
    && Conserves(r.rolled)
    && r.overhead == Get(r.rolled.perRole, orchestrator)
    && (r.context.Some? <==> HasCompaction(records, run))
    && (r.context.Some? ==> r.context.value == NullOutcomes(records, run) + Missing(records, run, |records|))
  }

  method AnyCompaction(records: seq<Record>, run: string) returns (b: bool)
    ensures b <==> HasCompaction(records, run)
  {
    for i := 0 to |records|
      invariant forall k :: 0 <= k < i ==> !CompactionRecord(records[k], run)
    {
      if (records[i].Compacted? || records[i].CompactionStarted?) && records[i].run == run {
        return true;
      }
    }
    b := false;
  }

  lemma {:induction false} NothingCharged(records: seq<Record>, run: string, live: set<string>, select: Select, n: nat)
    requires n <= |records| && !HasCompaction(records, run)
    ensures SumOf(records, run, live, select, n) == ZERO
    decreases n
  {
    if n > 0 {
      NothingCharged(records, run, live, select, n - 1);
      assert !CompactionRecord(records[n - 1], run);
    }
  }

  lemma ChargedNothing(records: seq<Record>, run: string, live: set<string>, select: Select)
    requires !HasCompaction(records, run)
    ensures Charged(records, run, live, select) == ZERO
  {
    NothingCharged(records, run, live, select, |records|);
  }

  lemma ZeroRight(a: Amount)
    ensures Plus(a, ZERO) == a
  {}

  lemma UnchargedRow(records: seq<Record>, run: string, live: set<string>, row: string)
    requires !HasCompaction(records, run)
    ensures RoleRow(records, run, live, row) == Used(records, run, ByRole(row))
    ensures ModelRow(records, run, live, row) == Used(records, run, ByModel(row))
    ensures Charged(records, run, live, All) == ZERO
  {
    hide Plus, Used, Charged, HasCompaction;
    ChargedNothing(records, run, live, All);
    ChargedNothing(records, run, live, OfRole(row));
    ChargedNothing(records, run, live, OfModel(Some(row)));
    ChargedNothing(records, run, live, OfModel(None));
    ZeroRight(ZERO);
    ZeroRight(Used(records, run, ByRole(row)));
    ZeroRight(Used(records, run, ByModel(row)));
  }

  lemma UnchargedRows(records: seq<Record>, run: string, live: set<string>, r: Rolled)
    requires Rolls(records, run, |records|, r) && !HasCompaction(records, run)
    ensures RowsMean(records, run, live, r)
  {
    hide Get, Charged, HasCompaction, RoleRow, ModelRow, Plus;
    UnchargedRow(records, run, live, "");
    ZeroRight(Used(records, run, Everything));
    forall row
      ensures RoleRow(records, run, live, row) == Used(records, run, ByRole(row))
      ensures ModelRow(records, run, live, row) == Used(records, run, ByModel(row))
    {
      UnchargedRow(records, run, live, row);
    }
  }

  /** The roll-up of the first pass with the charges added. */
  ghost predicate AddsCharges(r: Rolled, t: Charges, x: Rolled) {
    && x == r.(perRun := Plus(r.perRun, t.total), perRole := x.perRole, perModel := x.perModel)
    && Sum(x.perRole) == Plus(Sum(r.perRole), Sum(t.byRole))
    && (forall k :: Get(x.perRole, k) == Plus(Get(r.perRole, k), Get(t.byRole, k)))
    && Sum(x.perModel) == Plus(Sum(r.perModel), Sum(t.byModel))
    && forall row :: Get(x.perModel, row) == Plus(Get(r.perModel, row), RowOf(t.byModel, row))
  }

  lemma ChargedRows(records: seq<Record>, run: string, live: set<string>, r: Rolled, t: Charges, x: Rolled)
    requires Rolls(records, run, |records|, r) && Tallies(records, run, live, |records|, t) && AddsCharges(r, t, x)
    ensures RowsMean(records, run, live, x)
  {
    hide Get, Plus, SumOf, TerminalSum, Sum;
    forall row
      ensures Get(x.perModel, row) == ModelRow(records, run, live, row)
    {
      assert Get(t.byModel, Some(row)) == Charged(records, run, live, OfModel(Some(row)));
      assert Get(t.byModel, None) == Charged(records, run, live, OfModel(None));
    }
  }

  lemma ChargedConserves(r: Rolled, t: Charges, x: Rolled)
    requires Conserves(r) && Balanced(t) && AddsCharges(r, t, x)
    ensures Conserves(x)
  {
    hide Get, Plus, Sum;
    Shift(Sum(r.perRole), Sum(r.perSubagent), t.total);
  }

  /**
   * One run's roll-up; it fails exactly on a run with compaction records whose
   * accounting is inconsistent.
   */
  method RollUp(records: seq<Record>, run: string, orchestrator: string, live: set<string>) returns (r: Option<Report>)
    ensures r.Some? <==> (HasCompaction(records, run) ==> Consistent(records, run, live))
    ensures r.Some? ==> Reports(records, run, live, orchestrator, r.value)
  {
    hide Consistent, HasCompaction, RowsMean, Rolls, Conserves, Tallies, Balanced, Plus, Get, Sum;
    var rolled := RollTerminals(records, run);
    var context := AnyCompaction(records, run);
    if !context {
      UnchargedRows(records, run, live, rolled);
      return Some(Report(rolled, Get(rolled.perRole, orchestrator), None));
    }
    var charges := AggregateUnsettled(records, run, live);
    if charges.None? {
      return None;
    }
    var perRole := AddByRole(rolled.perRole, charges.value.byRole);
    var perModel := AddByModel(rolled.perModel, charges.value.byModel);
    var full := rolled.(perRun := Plus(rolled.perRun, charges.value.total), perRole := perRole, perModel := perModel);
    ChargedRows(records, run, live, rolled, charges.value, full);
    ChargedConserves(rolled, charges.value, full);
    r := Some(Report(full, Get(perRole, orchestrator), Some(charges.value.unknown)));
  }

  // ---------------------------------------------------------------- sessions

  /** The terminals of the run among the first `n` records. */
  function Sessions(records: seq<Record>, run: string, n: nat): nat
    requires n <= |records|
  {
    if n == 0 then 0 else Sessions(records, run, n - 1) + if Counted(records[n - 1], run) then 1 else 0
  }

  lemma {:induction false} TerminalSessions(records: seq<Record>, run: string, n: nat)
    requires n <= |records|
    ensures TerminalSum(records, run, Everything, n).sessions == Sessions(records, run, n)
    decreases n
  {
    if n > 0 {
      TerminalSessions(records, run, n - 1);
    }
  }

  lemma {:induction false} ChargesAreNoSessions(records: seq<Record>, run: string, live: set<string>, n: nat)
    requires n <= |records|
    ensures SumOf(records, run, live, All, n).sessions == 0
    decreases n
  {
    if n > 0 {
      ChargesAreNoSessions(records, run, live, n - 1);
    }
  }

  /** Only terminals count as sessions; charges add amounts alone. */
  lemma RunSessionsAreTerminals(records: seq<Record>, run: string, live: set<string>)
    ensures RunTotal(records, run, live).sessions == Sessions(records, run, |records|)
  {
    TerminalSessions(records, run, |records|);
    ChargesAreNoSessions(records, run, live, |records|);
  }
}
