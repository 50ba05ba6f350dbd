/** Records of other runs change nothing in a run's roll-up. */
module RunFilter {
  import opened Wrappers
  import opened Usage
  import opened Compaction
  import opened Rollup

  function OfRun(records: seq<Record>, run: string): (kept: seq<Record>)
    ensures forall r :: r in kept <==> r in records && r.run == run
  {
    if records == [] then []
    else
      var front := OfRun(records[..|records| - 1], run);
      var r := records[|records| - 1];
      if r.run == run then front + [r] else front
  }

  /** How many of the first `n` records are of the run. */
  function Rank(records: seq<Record>, run: string, n: nat): nat
    requires n <= |records|
  {
    |OfRun(records[..n], run)|
  }

  lemma {:induction false} RankFits(records: seq<Record>, run: string, n: nat)
    requires n <= |records|
    ensures Rank(records, run, n) <= |OfRun(records, run)|
    ensures OfRun(records[..n], run) == OfRun(records, run)[..Rank(records, run, n)]
    decreases |records|
  {
    if n == |records| {
      assert records[..n] == records;
    } else {
      var front := records[..|records| - 1];
      assert front[..n] == records[..n];
      RankFits(front, run, n);
    }
  }

  lemma RankSteps(records: seq<Record>, run: string, n: nat)
    requires n < |records|
    ensures Rank(records, run, n + 1) == Rank(records, run, n) + if records[n].run == run then 1 else 0
    ensures records[n].run == run ==>
              && Rank(records, run, n) < |OfRun(records, run)|
              && OfRun(records, run)[Rank(records, run, n)] == records[n]
  {
    assert records[..n + 1][..n] == records[..n];
    RankFits(records, run, n);
    RankFits(records, run, n + 1);
    if records[n].run == run {
      assert OfRun(records[..n + 1], run) == OfRun(records[..n], run) + [records[n]];
      assert OfRun(records[..n + 1], run)[Rank(records, run, n)] == records[n];
    }
  }

  lemma RankZero(records: seq<Record>, run: string)
    ensures Rank(records, run, 0) == 0
  {}

  lemma {:induction false} TerminalsOfRun(records: seq<Record>, run: string, cut: Cut, n: nat)
    requires n <= |records|
    ensures Rank(records, run, n) <= |OfRun(records, run)|
    ensures TerminalSum(records, run, cut, n) == TerminalSum(OfRun(records, run), run, cut, Rank(records, run, n))
    decreases n
  {
    hide OfRun, Plus, InCut;
    RankFits(records, run, n);
    if n == 0 {
      RankZero(records, run);
    } else {
      TerminalsOfRun(records, run, cut, n - 1);
      RankSteps(records, run, n - 1);
      OtherRunNotInCut(records[n - 1], run, cut);
    }
  }

  lemma OtherRunNotInCut(r: Record, run: string, cut: Cut)
    ensures InCut(r, run, cut) ==> r.run == run && (r.Terminal? || r.SubagentTerminal?) && r.used.Some?
  {}

  lemma SameSettled(records: seq<Record>, run: string, key: Key)
    ensures Settled(records, run, key) <==> Settled(OfRun(records, run), run, key)
  {
    var kept := OfRun(records, run);
    hide OfRun;
    if Settled(records, run, key) {
      var i :| 0 <= i < |records| && SettledBy(records[i], run, key);
      assert records[i] in kept;
    }
    if Settled(kept, run, key) {
      var i :| 0 <= i < |kept| && SettledBy(kept[i], run, key);
      assert kept[i] in records;
    }
  }

  lemma SameModel(records: seq<Record>, run: string, key: Key, model: Option<string>)
    ensures RanOn(records, run, key, model) <==> RanOn(OfRun(records, run), run, key, model)
  {
    var kept := OfRun(records, run);
    hide OfRun;
    if RanOn(records, run, key, model) {
      var i :| 0 <= i < |records| && InvokedIn(records[i], run, key) && records[i].model == model;
      assert records[i] in kept;
    }
    if RanOn(kept, run, key, model) {
      var i :| 0 <= i < |kept| && InvokedIn(kept[i], run, key) && kept[i].model == model;
      assert kept[i] in records;
    }
  }

  lemma SameChoice(records: seq<Record>, run: string, live: set<string>, select: Select, c: Record)
    ensures Chosen(records, run, live, select, c) <==> Chosen(OfRun(records, run), run, live, select, c)
  {
    hide Settled, RanOn, OfRun;
    if c.Compacted? {
      SameSettled(records, run, c.key);
      if select.OfModel? {
        SameModel(records, run, c.key, select.model);
      }
    }
  }

  lemma {:induction false} ChargesOfRun(records: seq<Record>, run: string, live: set<string>, select: Select, n: nat)
    requires n <= |records|
    ensures Rank(records, run, n) <= |OfRun(records, run)|
    ensures SumOf(records, run, live, select, n) == SumOf(OfRun(records, run), run, live, select, Rank(records, run, n))
    decreases n
  {
    hide OfRun, Plus, Chosen;
    RankFits(records, run, n);
    if n == 0 {
      RankZero(records, run);
    } else {
      ChargesOfRun(records, run, live, select, n - 1);
      RankSteps(records, run, n - 1);
      SameChoice(records, run, live, select, records[n - 1]);
      OtherRunNotChosen(records, run, live, select, records[n - 1]);
    }
  }

  lemma OtherRunNotChosen(records: seq<Record>, run: string, live: set<string>, select: Select, c: Record)
    ensures Chosen(records, run, live, select, c) ==> c.run == run && c.Compacted? && c.usage.Some?
  {}

  // ---------------------------------------------------------------- failure and unknown charges

  /** No clash between an earlier and a later record. */
  predicate Apart(a: Record, b: Record, run: string) {
    a.run == run && b.run == run ==>
      && !(a.CompactionStarted? && StartedIn(b, run, a.request))
      && !(a.Compacted? && OutcomeIn(b, run, a.request))
      && (a.InvocationStarted? && InvokedIn(b, run, a.key) ==> a.model == b.model)
  }

  ghost predicate AllApart(records: seq<Record>, run: string) {
    forall i, j :: 0 <= i < j < |records| ==> Apart(records[i], records[j], run)
  }

  lemma ApartMeans(records: seq<Record>, run: string)
    ensures AllApart(records, run) <==>
            StartsOnce(records, run) && OneModel(records, run) && OneOutcome(records, run)
  {
    if StartsOnce(records, run) && OneModel(records, run) && OneOutcome(records, run) {
      forall i, j | 0 <= i < j < |records|
        ensures Apart(records[i], records[j], run)
      {}
    }
    if AllApart(records, run) {
      forall i, j | 0 <= i < j < |records| && records[i].run == run
        ensures !(records[i].CompactionStarted? && StartedIn(records[j], run, records[i].request))
        ensures !(records[i].Compacted? && OutcomeIn(records[j], run, records[i].request))
        ensures records[i].InvocationStarted? && InvokedIn(records[j], run, records[i].key) ==>
                  records[i].model == records[j].model
      {
        assert Apart(records[i], records[j], run);
      }
    }
  }

  lemma ApartGrows(front: seq<Record>, r: Record, run: string)
    ensures AllApart(front + [r], run) <==> AllApart(front, run) && forall x :: x in front ==> Apart(x, r, run)
  {
    var all := front + [r];
    hide Apart;
    assert forall i :: 0 <= i < |front| ==> all[i] == front[i];
    if AllApart(all, run) {
      forall x | x in front
        ensures Apart(x, r, run)
      {
        var i :| 0 <= i < |front| && front[i] == x;
        assert Apart(all[i], all[|front|], run);
      }
      forall i, j | 0 <= i < j < |front|
        ensures Apart(front[i], front[j], run)
      {
        assert Apart(all[i], all[j], run);
      }
    }
  }

  lemma {:induction false} ApartOfRun(records: seq<Record>, run: string)
    ensures AllApart(records, run) <==> AllApart(OfRun(records, run), run)
    decreases |records|
  {
    if records != [] {
      var front, r := records[..|records| - 1], records[|records| - 1];
      var kept := OfRun(front, run);
      assert records == front + [r];
      ApartOfRun(front, run);
      ApartGrows(front, r, run);
      ApartGrows(kept, r, run);
      assert forall x :: x in front && x !in kept ==> Apart(x, r, run);
      hide AllApart;
    }
  }

  lemma SameOutcome(records: seq<Record>, run: string, request: string)
    ensures HasOutcome(records, run, request) <==> HasOutcome(OfRun(records, run), run, request)
  {
    var kept := OfRun(records, run);
    hide OfRun;
    if HasOutcome(records, run, request) {
      var i :| 0 <= i < |records| && OutcomeIn(records[i], run, request);
      assert records[i] in kept;
    }
    if HasOutcome(kept, run, request) {
      var i :| 0 <= i < |kept| && OutcomeIn(kept[i], run, request);
      assert kept[i] in records;
    }
  }

  lemma SameInvoked(records: seq<Record>, run: string, key: Key)
    ensures Invoked(records, run, key) <==> Invoked(OfRun(records, run), run, key)
  {
    var kept := OfRun(records, run);
    hide OfRun;
    if Invoked(records, run, key) {
      var i :| 0 <= i < |records| && InvokedIn(records[i], run, key);
      assert records[i] in kept;
    }
    if Invoked(kept, run, key) {
      var i :| 0 <= i < |kept| && InvokedIn(kept[i], run, key);
      assert kept[i] in records;
    }
  }

  lemma SameSound(records: seq<Record>, run: string, live: set<string>, c: Record)
    ensures Sound(records, run, live, c) <==> Sound(OfRun(records, run), run, live, c)
  {
    var kept := OfRun(records, run);
    if c.Compacted? && c.run == run {
      SameSettled(records, run, c.key);
      SameInvoked(records, run, c.key);
      hide OfRun, Settled, Invoked;
      if Sound(records, run, live, c) {
        forall i | 0 <= i < |kept| && StartedIn(kept[i], run, c.request)
          ensures SameIdentity(kept[i], c)
        {
          assert kept[i] in records;
        }
      }
      if Sound(kept, run, live, c) {
        forall i | 0 <= i < |records| && StartedIn(records[i], run, c.request)
          ensures SameIdentity(records[i], c)
        {
          assert records[i] in kept;
        }
      }
    }
  }

  lemma ConsistentOfRun(records: seq<Record>, run: string, live: set<string>)
    ensures Consistent(records, run, live) <==> Consistent(OfRun(records, run), run, live)
  {
    var kept := OfRun(records, run);
    ApartMeans(records, run);
    ApartMeans(kept, run);
    ApartOfRun(records, run);
    hide OfRun, StartsOnce, OneModel, OneOutcome, AllApart;
    forall r
      ensures Sound(records, run, live, r) <==> Sound(kept, run, live, r)
      ensures r.run != run ==> Sound(records, run, live, r)
    {
      SameSound(records, run, live, r);
    }
    hide Sound;
    if Consistent(records, run, live) {
      forall i | 0 <= i < |kept|
        ensures Sound(kept, run, live, kept[i])
      {
        assert kept[i] in records;
      }
    }
    if Consistent(kept, run, live) {
      forall i | 0 <= i < |records|
        ensures Sound(records, run, live, records[i])
      {
        assert records[i].run == run ==> records[i] in kept;
      }
    }
  }

  lemma CompactionOfRun(records: seq<Record>, run: string)
    ensures HasCompaction(records, run) <==> HasCompaction(OfRun(records, run), run)
  {
    var kept := OfRun(records, run);
    hide OfRun;
    if HasCompaction(records, run) {
      var i :| 0 <= i < |records| && CompactionRecord(records[i], run);
      assert records[i] in kept;
    }
    if HasCompaction(kept, run) {
      var i :| 0 <= i < |kept| && CompactionRecord(kept[i], run);
      assert kept[i] in records;
    }
  }

  lemma {:induction false} NullOutcomesOfRun(records: seq<Record>, run: string)
    ensures NullOutcomes(records, run) == NullOutcomes(OfRun(records, run), run)
    decreases |records|
  {
    if records != [] {
      var front, r := records[..|records| - 1], records[|records| - 1];
      NullOutcomesOfRun(front, run);
      if r.run == run {
        assert OfRun(records, run)[..|OfRun(records, run)| - 1] == OfRun(front, run);
      }
    }
  }

  /** What the record adds to the requests without an outcome. */
  ghost function MissingAt(records: seq<Record>, run: string, r: Record): seq<Unknown> {
    if r.CompactionStarted? && r.run == run && !HasOutcome(records, run, r.request)
    then [Unknown(r.request, r.key, r.epoch, NO_OUTCOME)] else []
  }

  lemma MissingStep(records: seq<Record>, run: string, n: nat)
    requires n < |records|
    ensures Missing(records, run, n + 1) == Missing(records, run, n) + MissingAt(records, run, records[n])
  {}

  lemma SameMissingAt(records: seq<Record>, run: string, r: Record)
    ensures MissingAt(records, run, r) == MissingAt(OfRun(records, run), run, r)
    ensures r.run != run ==> MissingAt(records, run, r) == []
  {
    hide HasOutcome, OfRun;
    if r.CompactionStarted? {
      SameOutcome(records, run, r.request);
    }
  }

  lemma {:induction false} MissingOfRun(records: seq<Record>, run: string, n: nat)
    requires n <= |records|
    ensures Rank(records, run, n) <= |OfRun(records, run)|
    ensures Missing(records, run, n) == Missing(OfRun(records, run), run, Rank(records, run, n))
    decreases n
  {
    hide OfRun, Rank, Missing;
    if n == 0 {
      RankZero(records, run);
      NothingMissing(records, run);
      NothingMissing(OfRun(records, run), run);
    } else {
      MissingOfRun(records, run, n - 1);
      MissingMore(records, run, n - 1);
    }
  }

  lemma NothingMissing(records: seq<Record>, run: string)
    ensures Missing(records, run, 0) == []
  {}

  lemma MissingMore(records: seq<Record>, run: string, n: nat)
    requires n < |records| && Rank(records, run, n) <= |OfRun(records, run)|
    requires Missing(records, run, n) == Missing(OfRun(records, run), run, Rank(records, run, n))
    ensures Rank(records, run, n + 1) <= |OfRun(records, run)|
    ensures Missing(records, run, n + 1) == Missing(OfRun(records, run), run, Rank(records, run, n + 1))
  {
    hide Missing, MissingAt, OfRun;
    RankSteps(records, run, n);
    hide Rank;
    SameMissingAt(records, run, records[n]);
    MissingStep(records, run, n);
    if records[n].run == run {
      MissingStep(OfRun(records, run), run, Rank(records, run, n));
    }
  }

  // ---------------------------------------------------------------- the whole report

  ghost function Amounts(records: seq<Record>, run: string, live: set<string>, cut: Cut, select: Select): (Amount,
      Amount) {
    (Used(records, run, cut), Charged(records, run, live, select))
  }

  lemma AmountsOfRun(records: seq<Record>, run: string, live: set<string>, cut: Cut, select: Select)
    ensures Amounts(records, run, live, cut, select) == Amounts(OfRun(records, run), run, live, cut, select)
  {
    assert records[..|records|] == records;
    TerminalsOfRun(records, run, cut, |records|);
    ChargesOfRun(records, run, live, select, |records|);
  }

  ghost function UnknownOf(records: seq<Record>, run: string): seq<Unknown> {
    NullOutcomes(records, run) + Missing(records, run, |records|)
  }

  lemma UnknownOfRun(records: seq<Record>, run: string)
    ensures UnknownOf(records, run) == UnknownOf(OfRun(records, run), run)
  {
    assert records[..|records|] == records;
    NullOutcomesOfRun(records, run);
    MissingOfRun(records, run, |records|);
  }

  /** Every amount, the list of unknown charges and failure itself. */
  ghost predicate SameAccounts(a: seq<Record>, b: seq<Record>, run: string, live: set<string>) {
    && (forall cut, select :: Amounts(a, run, live, cut, select) == Amounts(b, run, live, cut, select))
    && (HasCompaction(a, run) <==> HasCompaction(b, run))
    && (Consistent(a, run, live) <==> Consistent(b, run, live))
    && UnknownOf(a, run) == UnknownOf(b, run)
  }

  lemma SameRows(a: seq<Record>, b: seq<Record>, run: string, live: set<string>)
    requires SameAccounts(a, b, run, live)
    ensures RunTotal(a, run, live) == RunTotal(b, run, live)
    ensures forall row :: RoleRow(a, run, live, row) == RoleRow(b, run, live, row)
    ensures forall row :: ModelRow(a, run, live, row) == ModelRow(b, run, live, row)
    ensures forall cut :: Used(a, run, cut) == Used(b, run, cut)
  {
    hide Used, Charged, HasCompaction, Consistent, UnknownOf;
    forall cut, select
      ensures Used(a, run, cut) == Used(b, run, cut) && Charged(a, run, live, select) == Charged(b, run, live, select)
    {
      assert Amounts(a, run, live, cut, select) == Amounts(b, run, live, cut, select);
    }
  }

  lemma SameReport(a: seq<Record>, b: seq<Record>, run: string, live: set<string>, orchestrator: string, r: Report)
    requires SameAccounts(a, b, run, live) && Reports(a, run, live, orchestrator, r)
    ensures Reports(b, run, live, orchestrator, r)
  {
    hide Used, Charged, Conserves, HasCompaction, Plus, Get, NullOutcomes, Missing;
    SameRows(a, b, run, live);
  }

  /**
   * Two logs with the same records of the run: the roll-up of one fails exactly
   * when that of the other does, and a report that is right for one is right
   * for the other.
   */
  lemma OtherRunsChangeNothing(a: seq<Record>, b: seq<Record>, run: string, live: set<string>)
    requires OfRun(a, run) == OfRun(b, run)
    ensures SameAccounts(a, b, run, live)
    ensures forall orchestrator, r ::
              Reports(a, run, live, orchestrator, r) <==> Reports(b, run, live, orchestrator, r)
  {
    forall cut, select
      ensures Amounts(a, run, live, cut, select) == Amounts(b, run, live, cut, select)
    {
      AmountsOfRun(a, run, live, cut, select);
      AmountsOfRun(b, run, live, cut, select);
    }
    CompactionOfRun(a, run);
    CompactionOfRun(b, run);
    ConsistentOfRun(a, run, live);
    ConsistentOfRun(b, run, live);
    UnknownOfRun(a, run);
    UnknownOfRun(b, run);
    hide OfRun, Amounts, UnknownOf, HasCompaction, Consistent, Reports;
    forall orchestrator, r
      ensures Reports(a, run, live, orchestrator, r) <==> Reports(b, run, live, orchestrator, r)
    {
      if Reports(a, run, live, orchestrator, r) {
        SameReport(a, b, run, live, orchestrator, r);
      }
      if Reports(b, run, live, orchestrator, r) {
        SameReport(b, a, run, live, orchestrator, r);
      }
    }
  }
}
