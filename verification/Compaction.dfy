/**
 * Charges for context compaction that no terminal record covers, and the
 * requests whose charge is unknown.
 */
module Compaction {
  import opened Wrappers
  import opened Usage

  /** An invocation: a role and the id of its session. */
  datatype Key = Key(role: string, session: string)

  datatype Protocol = ReportResult | Minimal

  datatype Record =
    | InvocationStarted(run: string, key: Key, model: Option<string>)
    | CompactionStarted(run: string, request: string, key: Key, epoch: int, leaf: string)
    | Compacted(run: string, request: string, key: Key, epoch: int, leaf: string,
                usage: Option<Amount>, diagnostic: Option<string>)
    | Terminal(run: string, role: string, session: Option<string>, crashed: bool, model: Option<string>,
               used: Option<Amount>)
    | SubagentTerminal(run: string, subagent: string, childModel: string, evidence: Option<Protocol>,
                       used: Option<Amount>)
    | OtherRecord(run: string)

  datatype Unknown = Unknown(request: string, key: Key, epoch: int, diagnostic: string)

  const NO_OUTCOME := "context compaction started without an outcome"

  // ---------------------------------------------------------------- what the records say

  /** Invocations whose terminal is not a crash hold their own charges. */
  ghost predicate Settled(records: seq<Record>, run: string, key: Key) {
    exists i :: 0 <= i < |records| && SettledBy(records[i], run, key)
  }

  predicate SettledBy(r: Record, run: string, key: Key) {
    r.Terminal? && r.run == run && !r.crashed && r.role == key.role && r.session == Some(key.session)
  }

  predicate StartedIn(r: Record, run: string, request: string) {
    r.CompactionStarted? && r.run == run && r.request == request
  }

  predicate OutcomeIn(r: Record, run: string, request: string) {
    r.Compacted? && r.run == run && r.request == request
  }

  predicate InvokedIn(r: Record, run: string, key: Key) {
    r.InvocationStarted? && r.run == run && r.key == key
  }

  ghost predicate Invoked(records: seq<Record>, run: string, key: Key) {
    exists i :: 0 <= i < |records| && InvokedIn(records[i], run, key)
  }

  ghost predicate HasOutcome(records: seq<Record>, run: string, request: string) {
    exists i :: 0 <= i < |records| && OutcomeIn(records[i], run, request)
  }

  /** A known charge of the run that neither a terminal nor the live host holds. */
  ghost predicate Unsettled(records: seq<Record>, run: string, live: set<string>, c: Record) {
    && c.Compacted? && c.run == run && c.usage.Some?
    && !Settled(records, run, c.key)
    && c.key.session !in live
  }

  ghost predicate SameIdentity(s: Record, c: Record)
    requires s.CompactionStarted? && c.Compacted?
  {
    s.key == c.key && s.epoch == c.epoch && s.leaf == c.leaf
  }

  /** The outcome `c` can be accounted for. */
  ghost predicate Sound(records: seq<Record>, run: string, live: set<string>, c: Record) {
    c.Compacted? && c.run == run ==>
      && (forall i :: 0 <= i < |records| && StartedIn(records[i], run, c.request) ==> SameIdentity(records[i], c))
      && (c.usage.None? ==> c.diagnostic.Some?)
      && (Unsettled(records, run, live, c) ==> Invoked(records, run, c.key))
  }

  /** Exactly the logs the accounting accepts. */
  ghost predicate Consistent(records: seq<Record>, run: string, live: set<string>) {
    && StartsOnce(records, run) && OneModel(records, run) && OneOutcome(records, run)
    && forall i :: 0 <= i < |records| ==> Sound(records, run, live, records[i])
  }

  // ---------------------------------------------------------------- the index built first

  datatype Index = Index(started: map<string, Record>, models: map<Key, Option<string>>, settled: set<Key>)

  ghost predicate StartedIndexed(started: map<string, Record>, records: seq<Record>, run: string) {
    && (forall q :: q in started ==> StartedIn(started[q], run, q) && started[q] in records)
    && forall i :: 0 <= i < |records| && records[i].CompactionStarted? && records[i].run == run ==>
         records[i].request in started && started[records[i].request] == records[i]
  }

  ghost predicate ModelsIndexed(models: map<Key, Option<string>>, records: seq<Record>, run: string) {
    && (forall k :: k in models <==> Invoked(records, run, k))
    && forall i :: 0 <= i < |records| && records[i].InvocationStarted? && records[i].run == run ==>
         records[i].key in models && models[records[i].key] == records[i].model
  }

  ghost predicate SettledIndexed(settled: set<Key>, records: seq<Record>, run: string) {
    forall k :: k in settled <==> Settled(records, run, k)
  }

  ghost predicate Indexes(x: Index, records: seq<Record>, run: string) {
    && StartedIndexed(x.started, records, run)
    && ModelsIndexed(x.models, records, run)
    && SettledIndexed(x.settled, records, run)
  }

  /** No request starts twice. */
  ghost predicate StartsOnce(records: seq<Record>, run: string) {
    forall i, j :: 0 <= i < j < |records| && records[i].CompactionStarted? && records[i].run == run ==>
      !StartedIn(records[j], run, records[i].request)
  }

  /** No invocation names two models. */
  ghost predicate OneModel(records: seq<Record>, run: string) {
    forall i, j :: 0 <= i < j < |records| && records[i].InvocationStarted? && records[i].run == run ==>
      InvokedIn(records[j], run, records[i].key) ==> records[i].model == records[j].model
  }

  /** No request has two outcomes. */
  ghost predicate OneOutcome(records: seq<Record>, run: string) {
    forall i, j :: 0 <= i < j < |records| && records[i].Compacted? && records[i].run == run ==>
      !OutcomeIn(records[j], run, records[i].request)
  }

  lemma StartedGrows(started: map<string, Record>, records: seq<Record>, r: Record, run: string)
    requires StartedIndexed(started, records, run) && StartsOnce(records, run)
    ensures r.CompactionStarted? && r.run == run ==>
              && (StartsOnce(records + [r], run) <==> r.request !in started)
              && (r.request !in started ==> StartedIndexed(started[r.request := r], records + [r], run))
    ensures !(r.CompactionStarted? && r.run == run) ==>
              StartsOnce(records + [r], run) && StartedIndexed(started, records + [r], run)
  {
    var all := records + [r];
    if r.CompactionStarted? && r.run == run && r.request in started {
      var i :| 0 <= i < |records| && records[i] == started[r.request];
      assert all[i].CompactionStarted? && StartedIn(all[|records|], run, all[i].request);
    }
  }

  lemma InvokedAt(records: seq<Record>, run: string, key: Key)
    requires Invoked(records, run, key)
    ensures exists i :: 0 <= i < |records| && InvokedIn(records[i], run, key)
  {}

  lemma InvokedGrows(records: seq<Record>, r: Record, run: string)
    ensures forall k :: Invoked(records + [r], run, k) <==> Invoked(records, run, k) || InvokedIn(r, run, k)
  {
    var all := records + [r];
    assert all[|records|] == r;
    forall k
      ensures Invoked(all, run, k) <==> Invoked(records, run, k) || InvokedIn(r, run, k)
    {
      if i :| 0 <= i < |records| && InvokedIn(records[i], run, k) {
        assert InvokedIn(all[i], run, k);
      }
    }
  }

  lemma ModelsGrow(models: map<Key, Option<string>>, records: seq<Record>, r: Record, run: string)
    requires ModelsIndexed(models, records, run) && OneModel(records, run)
    ensures r.InvocationStarted? && r.run == run ==>
              && (OneModel(records + [r], run) <==> (r.key in models ==> models[r.key] == r.model))
              && (OneModel(records + [r], run) ==> ModelsIndexed(models[r.key := r.model], records + [r], run))
    ensures !(r.InvocationStarted? && r.run == run) ==>
              OneModel(records + [r], run) && ModelsIndexed(models, records + [r], run)
  {
    var all := records + [r];
    InvokedGrows(records, r, run);
    hide Invoked;
    if r.InvocationStarted? && r.run == run && r.key in models {
      InvokedAt(records, run, r.key);
      var i :| 0 <= i < |records| && InvokedIn(records[i], run, r.key);
      assert all[i].InvocationStarted? && InvokedIn(all[|records|], run, all[i].key);
    }
  }

  lemma SettledGrows(settled: set<Key>, records: seq<Record>, r: Record, run: string)
    requires SettledIndexed(settled, records, run)
    ensures SettledIndexed(
              if r.Terminal? && r.run == run && r.session.Some? && !r.crashed
              then settled + {Key(r.role, r.session.value)} else settled, records + [r], run)
  {
    var all := records + [r];
    forall k
      ensures Settled(all, run, k) <==> Settled(records, run, k) || SettledBy(r, run, k)
    {
      if Settled(records, run, k) {
        var i :| 0 <= i < |records| && SettledBy(records[i], run, k);
        assert SettledBy(all[i], run, k);
      }
      if SettledBy(r, run, k) {
        assert SettledBy(all[|records|], run, k);
      }
    }
  }

  lemma {:induction false} ClashPersists(records: seq<Record>, n: nat, run: string)
    requires n <= |records|
    ensures StartsOnce(records, run) ==> StartsOnce(records[..n], run)
    ensures OneModel(records, run) ==> OneModel(records[..n], run)
    ensures OneOutcome(records, run) ==> OneOutcome(records[..n], run)
  {}

  /** The first pass; it fails on a request started twice or an invocation with two models. */
  method BuildIndex(records: seq<Record>, run: string) returns (r: Option<Index>)
    ensures r.Some? <==> StartsOnce(records, run) && OneModel(records, run)
    ensures r.Some? ==> Indexes(r.value, records, run)
  {
    hide StartsOnce, OneModel, StartedIndexed, ModelsIndexed, SettledIndexed;
    EmptyIndex(run);
    var x := Index(map[], map[], {});
    for i := 0 to |records|
      invariant Indexes(x, records[..i], run) && StartsOnce(records[..i], run) && OneModel(records[..i], run)
    {
      var record := records[i];
      assert records[..i + 1] == records[..i] + [record];
      StartedGrows(x.started, records[..i], record, run);
      ModelsGrow(x.models, records[..i], record, run);
      SettledGrows(x.settled, records[..i], record, run);
      ClashPersists(records, i + 1, run);
      match record
      case CompactionStarted(recordRun, request, _, _, _) =>
        if recordRun == run {
          if request in x.started {
            return None;
          }
          x := x.(started := x.started[request := record]);
        }
      case InvocationStarted(recordRun, key, model) =>
        if recordRun == run {
          if key in x.models && x.models[key] != model {
            return None;
          }
          x := x.(models := x.models[key := model]);
        }
      case Terminal(recordRun, role, session, crashed, _, _) =>
        if recordRun == run && session.Some? && !crashed {
          x := x.(settled := x.settled + {Key(role, session.value)});
        }
      case _ =>
    }
    assert records[..|records|] == records;
    r := Some(x);
  }

  lemma EmptyIndex(run: string)
    ensures Indexes(Index(map[], map[], {}), [], run) && StartsOnce([], run) && OneModel([], run)
  {}

  // ---------------------------------------------------------------- what the accounting yields

  datatype Select = All | OfRole(role: string) | OfModel(model: Option<string>)

  ghost predicate RanOn(records: seq<Record>, run: string, key: Key, model: Option<string>) {
    exists i :: 0 <= i < |records| && InvokedIn(records[i], run, key) && records[i].model == model
  }

  /** The unsettled charge `c` belongs to the selection. */
  ghost predicate Chosen(records: seq<Record>, run: string, live: set<string>, select: Select, c: Record) {
    Unsettled(records, run, live, c) &&
    match select
    case All => true
    case OfRole(role) => c.key.role == role
    case OfModel(model) => RanOn(records, run, c.key, model)
  }

  /** The chosen charges among the first `n` records. */
  ghost function SumOf(records: seq<Record>, run: string, live: set<string>, select: Select, n: nat): Amount
    requires n <= |records|
  {
    if n == 0 then ZERO
    else
      var before := SumOf(records, run, live, select, n - 1);
      if Chosen(records, run, live, select, records[n - 1])
      then Plus(before, records[n - 1].usage.value.(sessions := 0))
      else before
  }

  function UnknownIn(c: Record): Unknown
    requires c.Compacted?
  {
    Unknown(c.request, c.key, c.epoch, if c.diagnostic.Some? then c.diagnostic.value else "")
  }

  /** Outcomes without a charge, in order. */
  function NullOutcomes(records: seq<Record>, run: string): seq<Unknown> {
    if records == [] then []
    else
      var front := NullOutcomes(records[..|records| - 1], run);
      var c := records[|records| - 1];
      if c.Compacted? && c.run == run && c.usage.None?
      then front + [UnknownIn(c)]
      else front
  }

  /** Requests of the first `n` records that never had an outcome, in order. */
  ghost function Missing(records: seq<Record>, run: string, n: nat): seq<Unknown>
    requires n <= |records|
  {
    if n == 0 then []
    else
      var front := Missing(records, run, n - 1);
      var s := records[n - 1];
      if s.CompactionStarted? && s.run == run && !HasOutcome(records, run, s.request)
      then front + [Unknown(s.request, s.key, s.epoch, "context compaction started without an outcome")] else front
  }

  datatype Charges = Charges(
    byRole: Table<string>, byModel: Table<Option<string>>, total: Amount, unknown: seq<Unknown>)

  /** The tables hold exactly the unsettled charges of the first `n` records. */
  ghost predicate Tallies(records: seq<Record>, run: string, live: set<string>, n: nat, t: Charges)
    requires n <= |records|
  {
    && t.total == SumOf(records, run, live, All, n)
    && (forall role :: Get(t.byRole, role) == SumOf(records, run, live, OfRole(role), n))
    && (forall model :: Get(t.byModel, model) == SumOf(records, run, live, OfModel(model), n))
  }

  /** Both tables add up to the total. */
  ghost predicate Balanced(t: Charges) {
    Sum(t.byRole) == t.total && Sum(t.byModel) == t.total
  }

  ghost predicate Accounts(records: seq<Record>, run: string, live: set<string>, t: Charges) {
    && Tallies(records, run, live, |records|, t)
    && Balanced(t)
    && t.unknown == NullOutcomes(records, run) + Missing(records, run, |records|)
  }

  // ---------------------------------------------------------------- the second and third pass

  /** One invocation has one model. */
  lemma OnlyModel(x: Index, records: seq<Record>, run: string, key: Key, model: Option<string>)
    requires Indexes(x, records, run) && key in x.models
    ensures RanOn(records, run, key, model) <==> x.models[key] == model
  {
    var i :| 0 <= i < |records| && InvokedIn(records[i], run, key);
    assert x.models[records[i].key] == records[i].model;
  }

  /** A charge that does not count leaves the tables alone. */
  lemma TallySkips(records: seq<Record>, run: string, live: set<string>, n: nat, t: Charges)
    requires n < |records| && Tallies(records, run, live, n, t)
    requires !Unsettled(records, run, live, records[n])
    ensures Tallies(records, run, live, n + 1, t)
  {
    hide Unsettled;
    forall role
      ensures Get(t.byRole, role) == SumOf(records, run, live, OfRole(role), n + 1)
    {}
    forall model
      ensures Get(t.byModel, model) == SumOf(records, run, live, OfModel(model), n + 1)
    {}
  }

  function Charge(t: Charges, key: Key, model: Option<string>, u: Amount): Charges {
    Charges(AddTo(t.byRole, key.role, u), AddTo(t.byModel, model, u), Plus(t.total, u), t.unknown)
  }

  lemma TallyAdds(x: Index, records: seq<Record>, run: string, live: set<string>, n: nat, t: Charges)
    requires n < |records| && Tallies(records, run, live, n, t) && Indexes(x, records, run)
    requires Unsettled(records, run, live, records[n]) && records[n].key in x.models
    ensures Tallies(records, run, live, n + 1,
                    Charge(t, records[n].key, x.models[records[n].key], records[n].usage.value.(sessions := 0)))
  {
    var c := records[n];
    var u, model := c.usage.value.(sessions := 0), x.models[c.key];
    hide Unsettled, Indexes;
    forall role
      ensures Get(AddTo(t.byRole, c.key.role, u), role) == SumOf(records, run, live, OfRole(role), n + 1)
    {
      SumGrows(records, run, live, OfRole(role), n);
      GetAfterAdd(t.byRole, c.key.role, u, role);
    }
    forall m
      ensures Get(AddTo(t.byModel, model, u), m) == SumOf(records, run, live, OfModel(m), n + 1)
    {
      OnlyModel(x, records, run, c.key, m);
      SumGrows(records, run, live, OfModel(m), n);
      GetAfterAdd(t.byModel, model, u, m);
    }
    SumGrows(records, run, live, All, n);
  }

  lemma ChargeBalances(t: Charges, key: Key, model: Option<string>, u: Amount)
    requires Balanced(t)
    ensures Balanced(Charge(t, key, model, u))
  {
    hide Sum, AddTo, Plus;
    SumAdds(t.byRole, key.role, u);
    SumAdds(t.byModel, model, u);
  }

  lemma SumGrows(records: seq<Record>, run: string, live: set<string>, select: Select, n: nat)
    requires n < |records| && Unsettled(records, run, live, records[n])
    ensures var c := records[n];
            var picked := match select
              case All => true
              case OfRole(role) => c.key.role == role
              case OfModel(model) => RanOn(records, run, c.key, model);
            SumOf(records, run, live, select, n + 1) ==
            if picked then Plus(SumOf(records, run, live, select, n), c.usage.value.(sessions := 0))
            else SumOf(records, run, live, select, n)
  {}

  ghost predicate SeenIndexed(seen: set<string>, records: seq<Record>, run: string) {
    forall q :: q in seen <==> HasOutcome(records, run, q)
  }

  lemma SeenGrows(seen: set<string>, records: seq<Record>, r: Record, run: string)
    requires SeenIndexed(seen, records, run) && OneOutcome(records, run)
    ensures r.Compacted? && r.run == run ==>
              && (OneOutcome(records + [r], run) <==> r.request !in seen)
              && SeenIndexed(seen + {r.request}, records + [r], run)
    ensures !(r.Compacted? && r.run == run) ==> OneOutcome(records + [r], run) && SeenIndexed(seen, records + [r], run)
  {
    var all := records + [r];
    forall q
      ensures HasOutcome(all, run, q) <==> HasOutcome(records, run, q) || OutcomeIn(r, run, q)
    {
      if HasOutcome(records, run, q) {
        var i :| 0 <= i < |records| && OutcomeIn(records[i], run, q);
        assert OutcomeIn(all[i], run, q);
      }
      if OutcomeIn(r, run, q) {
        assert OutcomeIn(all[|records|], run, q);
      }
    }
    if r.Compacted? && r.run == run && r.request in seen {
      var i :| 0 <= i < |records| && OutcomeIn(records[i], run, r.request);
      assert all[i].Compacted? && OutcomeIn(all[|records|], run, all[i].request);
    }
  }

  /** The checks made on one outcome against the index. */
  predicate Accountable(x: Index, run: string, live: set<string>, c: Record)
    requires c.Compacted?
  {
    && (c.request in x.started && x.started[c.request].CompactionStarted? ==>
          var start := x.started[c.request];
          start.key == c.key && start.epoch == c.epoch && start.leaf == c.leaf)
    && (c.usage.None? ==> c.diagnostic.Some?)
    && (c.usage.Some? && c.key !in x.settled && c.key.session !in live ==> c.key in x.models)
  }

  lemma AccountableIsSound(x: Index, records: seq<Record>, run: string, live: set<string>, c: Record)
    requires Indexes(x, records, run) && c.Compacted? && c.run == run
    ensures Accountable(x, run, live, c) <==> Sound(records, run, live, c)
    ensures Unsettled(records, run, live, c) <==> c.usage.Some? && c.key !in x.settled && c.key.session !in live
  {
    hide Settled, Invoked;
    if c.request in x.started {
      var i :| 0 <= i < |records| && records[i] == x.started[c.request];
      assert StartedIn(records[i], run, c.request);
    }
  }

  ghost predicate AllSound(records: seq<Record>, run: string, live: set<string>, n: nat)
    requires n <= |records|
  {
    forall i :: 0 <= i < n ==> Sound(records, run, live, records[i])
  }

  lemma NoNullOutcomes(run: string)
    ensures NullOutcomes([], run) == []
  {}

  lemma NullOutcomesGrow(records: seq<Record>, c: Record, run: string)
    ensures NullOutcomes(records + [c], run) == NullOutcomes(records, run) +
            if c.Compacted? && c.run == run && c.usage.None? then [UnknownIn(c)] else []
  {
    assert (records + [c])[..|records|] == records;
  }

  method Collect(records: seq<Record>, run: string, live: set<string>, x: Index)
    returns (r: Option<Charges>, seen: set<string>)
    requires Indexes(x, records, run)
    ensures r.Some? <==> OneOutcome(records, run) && AllSound(records, run, live, |records|)
    ensures r.Some? ==>
              && Tallies(records, run, live, |records|, r.value)
              && Balanced(r.value)
              && r.value.unknown == NullOutcomes(records, run)
              && SeenIndexed(seen, records, run)
  {
    hide Indexes, Sound, OneOutcome, Tallies, SeenIndexed, Unsettled, Accountable, Charge, Balanced, Sum;
    NoNullOutcomes(run);
    hide NullOutcomes;
    EmptyTally(records, run, live);
    var t := Charges(map[], map[], ZERO, []);
    seen := {};
    for i := 0 to |records|
      invariant Tallies(records, run, live, i, t) && Balanced(t)
      invariant t.unknown == NullOutcomes(records[..i], run)
      invariant SeenIndexed(seen, records[..i], run) && OneOutcome(records[..i], run)
      invariant AllSound(records, run, live, i)
    {
      var c := records[i];
      assert records[..i + 1] == records[..i] + [c];
      SeenGrows(seen, records[..i], c, run);
      NullOutcomesGrow(records[..i], c, run);
      ClashPersists(records, i + 1, run);
      if !c.Compacted? || c.run != run {
        OthersAreSound(records, run, live, c);
        TallySkips(records, run, live, i, t);
        continue;
      }
      if c.request in seen {
        return None, seen;
      }
      seen := seen + {c.request};
      AccountableIsSound(x, records, run, live, c);
      if !Accountable(x, run, live, c) {
        return None, seen;
      }
      ghost var before := t;
      AccountableHas(x, run, live, c);
      if c.usage.None? {
        TallySkips(records, run, live, i, t);
        t := t.(unknown := t.unknown + [Unknown(c.request, c.key, c.epoch, c.diagnostic.value)]);
        TallyIgnoresUnknown(records, run, live, i + 1, before, t);
      } else if c.key in x.settled || c.key.session in live {
        TallySkips(records, run, live, i, t);
      } else {
        TallyAdds(x, records, run, live, i, t);
        ChargeBalances(t, c.key, x.models[c.key], c.usage.value.(sessions := 0));
        t := Charge(t, c.key, x.models[c.key], c.usage.value.(sessions := 0));
        ChargeKeepsUnknown(before, c.key, x.models[c.key], c.usage.value.(sessions := 0));
      }
    }
    assert records[..|records|] == records;
    r := Some(t);
  }

  lemma EmptyTally(records: seq<Record>, run: string, live: set<string>)
    ensures Tallies(records, run, live, 0, Charges(map[], map[], ZERO, [])) && Balanced(Charges(map[], map[], ZERO, []))
    ensures SeenIndexed({}, [], run) && OneOutcome([], run)
  {}

  lemma OthersAreSound(records: seq<Record>, run: string, live: set<string>, c: Record)
    requires !c.Compacted? || c.run != run
    ensures Sound(records, run, live, c) && !Unsettled(records, run, live, c)
  {}

  lemma AccountableHas(x: Index, run: string, live: set<string>, c: Record)
    requires c.Compacted? && Accountable(x, run, live, c)
    ensures c.usage.Some? && c.key !in x.settled && c.key.session !in live ==> c.key in x.models
    ensures c.usage.None? ==> c.diagnostic.Some?
  {}

  lemma TallyIgnoresUnknown(records: seq<Record>, run: string, live: set<string>, n: nat, t: Charges, u: Charges)
    requires n <= |records| && Tallies(records, run, live, n, t) && Balanced(t)
    requires u == t.(unknown := u.unknown)
    ensures Tallies(records, run, live, n, u) && Balanced(u)
  {}

  lemma ChargeKeepsUnknown(t: Charges, key: Key, model: Option<string>, u: Amount)
    ensures Charge(t, key, model, u).unknown == t.unknown
  {}

  method CollectMissing(records: seq<Record>, run: string, seen: set<string>) returns (missing: seq<Unknown>)
    requires SeenIndexed(seen, records, run)
    ensures missing == Missing(records, run, |records|)
  {
    missing := [];
    for i := 0 to |records|
      invariant missing == Missing(records, run, i)
    {
      var s := records[i];
      if s.CompactionStarted? && s.run == run && s.request !in seen {
        missing := missing + [Unknown(s.request, s.key, s.epoch, NO_OUTCOME)];
      }
    }
  }

  /**
   * Accepts exactly the consistent logs; then every charge that no terminal
   * and no live host holds is in each table once, and the unknown list names
   * every request without a known charge.
   */
  method AggregateUnsettled(records: seq<Record>, run: string, live: set<string>) returns (r: Option<Charges>)
    ensures r.Some? <==> Consistent(records, run, live)
    ensures r.Some? ==> Accounts(records, run, live, r.value)
  {
    hide Indexes, Sound, OneOutcome, StartsOnce, OneModel, Tallies, Balanced, SeenIndexed, Sum;
    var index := BuildIndex(records, run);
    if index.None? {
      return None;
    }
    var charges, seen := Collect(records, run, live, index.value);
    if charges.None? {
      return None;
    }
    var missing := CollectMissing(records, run, seen);
    var t := charges.value;
    r := Some(t.(unknown := t.unknown + missing));
    TallyIgnoresUnknown(records, run, live, |records|, t, r.value);
  }
}
