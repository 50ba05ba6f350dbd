/**
 * Every known compaction charge counts once in a run's total: inside the
 * usage of its session's terminal, or as an unsettled charge, or with the live
 * host; never twice.
 */
module Settlement {
  import opened Usage
  import opened Compaction
  import opened Rollup

  function Plain(a: Amount): Amount {
    a.(sessions := 0)
  }

  datatype Which =
    | Known
    | Of(key: Key)
    | SettledWithin(count: nat)
    | HeldLive(live: set<string>)
    | Open(live: set<string>)

  predicate KnownCharge(c: Record, run: string) {
    c.Compacted? && c.run == run && c.usage.Some?
  }

  /** One of the first `n` records is the terminal that holds the charges of `key`. */
  ghost predicate SettledBefore(records: seq<Record>, run: string, key: Key, n: nat) {
    exists i :: 0 <= i < n && i < |records| && SettledBy(records[i], run, key)
  }

  ghost predicate Picks(records: seq<Record>, run: string, which: Which, c: Record) {
    KnownCharge(c, run) &&
    match which
    case Known => true
    case Of(key) => c.key == key
    case SettledWithin(n) => SettledBefore(records, run, c.key, n)
    case HeldLive(live) => !Settled(records, run, c.key) && c.key.session in live
    case Open(live) => Unsettled(records, run, live, c)
  }

  ghost function ChargeSum(records: seq<Record>, run: string, which: Which, m: nat): Amount
    requires m <= |records|
  {
    if m == 0 then ZERO
    else
      var before := ChargeSum(records, run, which, m - 1);
      if Picks(records, run, which, records[m - 1]) then Plus(before, Plain(records[m - 1].usage.value)) else before
  }

  ghost function ChargesOf(records: seq<Record>, run: string, which: Which): Amount {
    ChargeSum(records, run, which, |records|)
  }

  predicate Settles(r: Record, run: string) {
    r.Terminal? && r.run == run && !r.crashed && r.session.Some?
  }

  /**
   * A log that keeps its books: the terminal at `i` holds `own[i]` and the
   * compaction charges of its session, a crashed one nothing, and no invocation
   * ends twice. `Metering` derives this of every log a host can write.
   */
  ghost predicate Honest(records: seq<Record>, run: string, own: seq<Amount>) {
    && |own| == |records|
    && (forall i :: 0 <= i < |records| ==> HonestAt(records, run, own[i], records[i]))
    && EndsOnce(records, run)
  }

  ghost predicate EndsOnce(records: seq<Record>, run: string) {
    forall i, j, key :: 0 <= i < j < |records| && SettledBy(records[i], run, key) ==> !SettledBy(records[j], run, key)
  }

  ghost predicate HonestAt(records: seq<Record>, run: string, own: Amount, r: Record) {
    if Settles(r, run) then
      r.used.Some? && Plain(r.used.value) == Plus(own, ChargesOf(records, run, Of(Key(r.role, r.session.value))))
    else if Counted(r, run) then
      Plain(r.used.value) == own && (r.Terminal? && r.crashed ==> own == ZERO)
    else own == ZERO
  }

  function OwnSum(own: seq<Amount>, n: nat): Amount
    requires n <= |own|
  {
    if n == 0 then ZERO else Plus(OwnSum(own, n - 1), own[n - 1])
  }

  lemma Regroup(a: Amount, b: Amount, c: Amount, d: Amount)
    ensures Plus(Plus(a, b), Plus(c, d)) == Plus(Plus(a, c), Plus(b, d))
    ensures Plus(Plus(a, b), c) == Plus(Plus(a, c), b)
    ensures Plus(Plus(a, b), c) == Plus(a, Plus(b, c))
    ensures Plus(a, ZERO) == a
  {}

  /** The terminal at `n` settles its key and no other. */
  lemma SettledStep(records: seq<Record>, run: string, key: Key, n: nat)
    requires n < |records|
    ensures SettledBefore(records, run, key, n + 1) <==>
            SettledBefore(records, run, key, n) || SettledBy(records[n], run, key)
  {}

  /** The charge `c` moves to the settled ones with its own terminal only. */
  lemma SettlingPicks(records: seq<Record>, run: string, n: nat, c: Record)
    requires EndsOnce(records, run) && n < |records| && Settles(records[n], run) && KnownCharge(c, run)
    ensures var k := Key(records[n].role, records[n].session.value);
            && (Picks(records, run, SettledWithin(n + 1), c) <==>
                Picks(records, run, SettledWithin(n), c) || c.key == k)
            && !(Picks(records, run, SettledWithin(n), c) && c.key == k)
  {
    SettledStep(records, run, c.key, n);
    assert SettledBy(records[n], run, Key(records[n].role, records[n].session.value));
  }

  lemma {:induction false} SettlingAdds(records: seq<Record>, run: string, n: nat, m: nat)
    requires EndsOnce(records, run) && n < |records| && m <= |records| && Settles(records[n], run)
    ensures ChargeSum(records, run, SettledWithin(n + 1), m)
         == Plus(ChargeSum(records, run, SettledWithin(n), m),
                 ChargeSum(records, run, Of(Key(records[n].role, records[n].session.value)), m))
    decreases m
  {
    var k := Key(records[n].role, records[n].session.value);
    if m == 0 {
      Regroup(ZERO, ZERO, ZERO, ZERO);
    } else {
      SettlingAdds(records, run, n, m - 1);
      var c := records[m - 1];
      if KnownCharge(c, run) {
        SettlingPicks(records, run, n, c);
        assert Picks(records, run, Of(k), c) <==> c.key == k;
        hide Plus, Plain, Picks, SettledBefore, EndsOnce;
        Regroup(ChargeSum(records, run, SettledWithin(n), m - 1), ChargeSum(records, run, Of(k), m - 1),
                Plain(c.usage.value), ZERO);
      }
    }
  }

  lemma {:induction false} OthersSettleNothing(records: seq<Record>, run: string, n: nat, m: nat)
    requires n < |records| && m <= |records| && !Settles(records[n], run)
    ensures ChargeSum(records, run, SettledWithin(n + 1), m) == ChargeSum(records, run, SettledWithin(n), m)
    decreases m
  {
    if m > 0 {
      OthersSettleNothing(records, run, n, m - 1);
      if records[m - 1].Compacted? {
        SettledStep(records, run, records[m - 1].key, n);
      }
    }
  }

  lemma {:induction false} NothingSettled(records: seq<Record>, run: string, m: nat)
    requires m <= |records|
    ensures ChargeSum(records, run, SettledWithin(0), m) == ZERO
    decreases m
  {
    if m > 0 {
      NothingSettled(records, run, m - 1);
    }
  }

  /** Terminals hold their own usage and exactly the charges they settle. */
  lemma {:induction false} TerminalsHold(records: seq<Record>, run: string, own: seq<Amount>, n: nat)
    requires Honest(records, run, own) && n <= |records|
    ensures Plain(TerminalSum(records, run, Everything, n))
         == Plus(OwnSum(own, n), ChargesOf(records, run, SettledWithin(n)))
    decreases n
  {
    hide Plus, Plain, ChargesOf;
    if n == 0 {
      NothingSettledAtAll(records, run);
      Regroup(ZERO, ZERO, ZERO, ZERO);
      PlainZero();
    } else {
      TerminalsHold(records, run, own, n - 1);
      TerminalHolds(records, run, own, n - 1);
    }
  }

  lemma NothingSettledAtAll(records: seq<Record>, run: string)
    ensures ChargesOf(records, run, SettledWithin(0)) == ZERO
  {
    NothingSettled(records, run, |records|);
  }

  lemma PlainZero()
    ensures Plain(ZERO) == ZERO
  {}

  lemma TerminalStep(records: seq<Record>, run: string, own: seq<Amount>, n: nat)
    requires n < |records| == |own|
    ensures Plain(TerminalSum(records, run, Everything, n + 1)) ==
            if Counted(records[n], run)
            then Plus(Plain(TerminalSum(records, run, Everything, n)), Plain(records[n].used.value))
            else Plain(TerminalSum(records, run, Everything, n))
    ensures OwnSum(own, n + 1) == Plus(OwnSum(own, n), own[n])
  {}

  lemma TerminalHolds(records: seq<Record>, run: string, own: seq<Amount>, n: nat)
    requires Honest(records, run, own) && n < |records|
    requires Plain(TerminalSum(records, run, Everything, n))
          == Plus(OwnSum(own, n), ChargesOf(records, run, SettledWithin(n)))
    ensures Plain(TerminalSum(records, run, Everything, n + 1))
         == Plus(OwnSum(own, n + 1), ChargesOf(records, run, SettledWithin(n + 1)))
  {
    var r := records[n];
    assert HonestAt(records, run, own[n], r);
    TerminalStep(records, run, own, n);
    if Settles(r, run) {
      SettlingAdds(records, run, n, |records|);
    } else {
      OthersSettleNothing(records, run, n, |records|);
    }
    hide Plus, Plain, ChargeSum, TerminalSum, OwnSum, Honest;
    var settled := ChargesOf(records, run, SettledWithin(n));
    if Settles(r, run) {
      Regroup(OwnSum(own, n), settled, own[n], ChargesOf(records, run, Of(Key(r.role, r.session.value))));
    } else {
      Regroup(OwnSum(own, n), settled, own[n], ZERO);
      Regroup(OwnSum(own, n), ZERO, ZERO, ZERO);
    }
  }

  /** A known charge is settled, with the live host, or open: exactly one of the three. */
  lemma {:induction false} ChargesSplit(records: seq<Record>, run: string, live: set<string>, m: nat)
    requires m <= |records|
    ensures ChargeSum(records, run, Known, m)
         == Plus(ChargeSum(records, run, SettledWithin(|records|), m),
                 Plus(ChargeSum(records, run, HeldLive(live), m), ChargeSum(records, run, Open(live), m)))
    decreases m
  {
    if m == 0 {
      Regroup(ZERO, ZERO, ZERO, ZERO);
    } else {
      ChargesSplit(records, run, live, m - 1);
      var c := records[m - 1];
      if KnownCharge(c, run) {
        OneOfThree(records, run, live, c);
        var s, h, o := ChargeSum(records, run, SettledWithin(|records|), m - 1),
                       ChargeSum(records, run, HeldLive(live), m - 1), ChargeSum(records, run, Open(live), m - 1);
        hide Plus, Plain, Picks;
        AddToOne(s, h, o, Plain(c.usage.value));
      }
    }
  }

  lemma OneOfThree(records: seq<Record>, run: string, live: set<string>, c: Record)
    requires KnownCharge(c, run)
    ensures Picks(records, run, Known, c)
    ensures var s, h, o := Picks(records, run, SettledWithin(|records|), c), Picks(records, run, HeldLive(live), c),
                           Picks(records, run, Open(live), c);
            (s || h || o) && !(s && h) && !(s && o) && !(h && o)
  {
    assert SettledBefore(records, run, c.key, |records|) <==> Settled(records, run, c.key);
  }

  lemma AddToOne(s: Amount, h: Amount, o: Amount, u: Amount)
    ensures Plus(Plus(s, Plus(h, o)), u) == Plus(Plus(s, u), Plus(h, o))
    ensures Plus(Plus(s, Plus(h, o)), u) == Plus(s, Plus(Plus(h, u), o))
    ensures Plus(Plus(s, Plus(h, o)), u) == Plus(s, Plus(h, Plus(o, u)))
  {}

  lemma {:induction false} OpenIsUnsettled(records: seq<Record>, run: string, live: set<string>, m: nat)
    requires m <= |records|
    ensures ChargeSum(records, run, Open(live), m) == SumOf(records, run, live, All, m)
    decreases m
  {
    if m > 0 {
      OpenIsUnsettled(records, run, live, m - 1);
    }
  }

  /**
   * In such a log a run's total, terminals and open charges together, and what
   * the live host holds are the terminals' own usage and every known charge once.
   */
  lemma HonestLogsBalance(records: seq<Record>, run: string, live: set<string>, own: seq<Amount>)
    requires Honest(records, run, own)
    ensures Plus(Plain(RunTotal(records, run, live)), ChargesOf(records, run, HeldLive(live)))
         == Plus(OwnSum(own, |records|), ChargesOf(records, run, Known))
  {
    TerminalsHold(records, run, own, |records|);
    ChargesSplit(records, run, live, |records|);
    OpenIsUnsettled(records, run, live, |records|);
    var used, open := Used(records, run, Everything), Charged(records, run, live, All);
    ChargesAreNoSessions(records, run, live, |records|);
    PlainSum(used, open);
    hide Plus, Plain, ChargeSum, SumOf, TerminalSum;
    var settled, held := ChargesOf(records, run, SettledWithin(|records|)), ChargesOf(records, run, HeldLive(live));
    Reorder(OwnSum(own, |records|), settled, open, held);
  }

  lemma PlainSum(a: Amount, b: Amount)
    requires b.sessions == 0
    ensures Plain(Plus(a, b)) == Plus(Plain(a), b)
  {}

  lemma Reorder(own: Amount, settled: Amount, open: Amount, held: Amount)
    ensures Plus(Plus(Plus(own, settled), open), held) == Plus(own, Plus(settled, Plus(held, open)))
  {}
}
