/**
 * The host's side of compaction accounting: sessions begin, meter messages and
 * compaction charges, are captured, end, are disposed of, or die with the
 * process. Every log it can write is one the roll-up accepts and balances.
 */
module Metering {
  import opened Wrappers

  import opened Usage
  import opened Compaction
  import opened Rollup
  import opened Settlement
  import Cost = SessionCost

  // ---------------------------------------------------------------- keys of metered usage

  function Decimal(n: nat): (text: string)
    ensures forall c :: c in text ==> '0' <= c <= '9'
  {
    if n < 10 then ['0' + n as char] else Decimal(n / 10) + ['0' + (n % 10) as char]
  }

  lemma {:induction false} DecimalReads(m: nat, n: nat)
    requires Decimal(m) == Decimal(n)
    ensures m == n
    decreases m
  {
    var x, y := Decimal(m), Decimal(n);
    assert x[|x| - 1] == '0' + (m % 10) as char && y[|y| - 1] == '0' + (n % 10) as char;
    if m >= 10 && n >= 10 {
      assert Decimal(m / 10) == x[..|x| - 1] && Decimal(n / 10) == y[..|y| - 1];
      DecimalReads(m / 10, n / 10);
    }
  }

  /** One provider call of a compaction request. */
  datatype Part = Part(request: string, ordinal: nat)

  function ChargeId(p: Part): string {
    p.request + ":" + Decimal(p.ordinal)
  }

  /** An isolated child meters under the prefix, an in-process session as if it were a message. */
  function PartEvent(isolated: bool, p: Part, usage: Amount): Cost.Event {
    if isolated then Cost.Charge(ChargeId(p), usage) else Cost.Message(ChargeId(p), usage)
  }

  lemma ChargeIdsDiffer(p: Part, q: Part)
    requires ChargeId(p) == ChargeId(q)
    ensures p == q
  {
    var x, y := ChargeId(p), ChargeId(q);
    var a, b := Decimal(p.ordinal), Decimal(q.ordinal);
    assert x[|x| - |a| - 1] == ':' && y[|y| - |b| - 1] == ':';
    assert x[|x| - |a|..] == a && y[|y| - |b|..] == b;
    assert ':' !in a && ':' !in b;
    DecimalReads(p.ordinal, q.ordinal);
    assert x[..|x| - |a| - 1] == p.request && y[..|y| - |b| - 1] == q.request;
  }

  // ---------------------------------------------------------------- one session's meter

  /** Usage that reached the accumulator: of a message, or of a part of a compaction. */
  datatype Entry = Entry(event: Cost.Event, part: Option<Part>)

  datatype Origin = Origin(epoch: int, leaf: string)

  /**
   * A session in memory: all it metered, what of it the last capture saw, its
   * compactions without an outcome, those with an unknown part, and those
   * whose charge was recorded.
   */
  datatype Meter = Meter(
    model: Option<string>, retained: bool, isolated: bool, entries: seq<Entry>, captured: seq<Entry>,
    pending: map<string, Origin>, broken: set<string>, known: set<string>, ended: bool)

  function Events(entries: seq<Entry>): seq<Cost.Event> {
    seq(|entries|, i requires 0 <= i < |entries| => entries[i].event)
  }

  /** What the accumulator holds: the usage of every key once. */
  ghost function Metered(entries: seq<Entry>): Amount {
    Cost.Counted(Events(entries), |entries|)
  }

  predicate PartOf(e: Entry, requests: set<string>) {
    e.part.Some? && e.part.value.request in requests
  }

  predicate Usable(e: Entry) {
    e.event.Message? || e.event.Charge?
  }

  /** The parts of the given requests. */
  function PartsUsed(entries: seq<Entry>, requests: set<string>): Amount {
    if entries == [] then ZERO
    else
      var e := entries[|entries| - 1];
      var before := PartsUsed(entries[..|entries| - 1], requests);
      if PartOf(e, requests) && Usable(e) then Plus(before, e.event.usage) else before
  }

  /** Everything else, each key once: messages, and parts of requests without a recorded charge. */
  ghost function OwnUsed(entries: seq<Entry>, known: set<string>): Amount {
    if entries == [] then ZERO
    else
      var e := entries[|entries| - 1];
      var before := OwnUsed(entries[..|entries| - 1], known);
      if Cost.Fresh(Events(entries), |entries| - 1) && !PartOf(e, known) then Plus(before, e.event.usage) else before
  }

  /** What was metered after the last capture. */
  function Since(m: Meter): seq<Entry> {
    if m.captured <= m.entries then m.entries[|m.captured|..] else []
  }

  predicate NonNegative(a: Amount) {
    && a.input >= 0 && a.output >= 0 && a.cacheRead >= 0 && a.cacheWrite >= 0
    && a.tokens >= 0 && a.cost >= 0.0 && a.sessions >= 0
  }

  /** A message's key is made of numbers and dashes; a part's has a colon. */
  predicate Shaped(isolated: bool, e: Entry) {
    && Usable(e) && e.event.usage.sessions == 0
    && (e.part.Some? ==> NonNegative(e.event.usage))
    && match e.part
       case None => e.event.Message? && ':' !in e.event.id
       case Some(p) => e.event == PartEvent(isolated, p, e.event.usage)
  }

  predicate WellMetered(isolated: bool, entries: seq<Entry>) {
    && (forall i :: 0 <= i < |entries| ==> Shaped(isolated, entries[i]))
    && forall i, j :: 0 <= i < j < |entries| && entries[i].part.Some? ==> entries[i].part != entries[j].part
  }

  /** No part shares its key with anything else. */
  lemma KeysDiffer(isolated: bool, d: Entry, e: Entry)
    requires Shaped(isolated, d) && Shaped(isolated, e) && e.part.Some? && d.part != e.part
    ensures Cost.KeyOf(d.event) != Cost.KeyOf(e.event)
  {
    var id := ChargeId(e.part.value);
    assert id[|e.part.value.request|] == ':';
    if d.part.Some? {
      if ChargeId(d.part.value) == id {
        ChargeIdsDiffer(d.part.value, e.part.value);
      }
      Cost.KeysApart(ChargeId(d.part.value), id, d.event.usage, e.event.usage);
    } else {
      assert (Cost.CHARGE_PREFIX + id)[|Cost.CHARGE_PREFIX| - 1] == ':';
    }
  }

  lemma PartsGrow(entries: seq<Entry>, e: Entry, requests: set<string>)
    ensures PartsUsed(entries + [e], requests) ==
            if PartOf(e, requests) && Usable(e) then Plus(PartsUsed(entries, requests), e.event.usage)
            else PartsUsed(entries, requests)
  {
    assert (entries + [e])[..|entries|] == entries;
  }

  lemma OwnGrows(entries: seq<Entry>, e: Entry, known: set<string>)
    ensures OwnUsed(entries + [e], known) ==
            if Cost.Fresh(Events(entries + [e]), |entries|) && !PartOf(e, known)
            then Plus(OwnUsed(entries, known), e.event.usage) else OwnUsed(entries, known)
  {
    assert (entries + [e])[..|entries|] == entries;
  }

  lemma MeteredGrows(entries: seq<Entry>, e: Entry)
    requires Usable(e)
    ensures Metered(entries + [e]) ==
            if Cost.Fresh(Events(entries + [e]), |entries|) then Plus(Metered(entries), e.event.usage)
            else Metered(entries)
  {
    assert Events(entries + [e]) == Events(entries) + [e.event];
    Cost.HistoryGrows(Events(entries), e.event);
  }

  /** What a session metered is its own usage and its recorded charges. */
  lemma {:induction false} MeterSplits(isolated: bool, entries: seq<Entry>, known: set<string>)
    requires WellMetered(isolated, entries)
    ensures Metered(entries) == Plus(OwnUsed(entries, known), PartsUsed(entries, known))
    decreases |entries|
  {
    if entries == [] {
      Regroup(ZERO, ZERO, ZERO, ZERO);
    } else {
      var front, e := entries[..|entries| - 1], entries[|entries| - 1];
      assert entries == front + [e];
      MeterSplits(isolated, front, known);
      MeteredGrows(front, e);
      PartsGrow(front, e, known);
      OwnGrows(front, e, known);
      if e.part.Some? {
        PartIsFresh(isolated, front, e);
      }
      hide Plus, Metered, OwnUsed, PartsUsed, Cost.Fresh, WellMetered;
      Regroup(OwnUsed(front, known), PartsUsed(front, known), e.event.usage, ZERO);
    }
  }

  lemma PartIsFresh(isolated: bool, front: seq<Entry>, e: Entry)
    requires WellMetered(isolated, front + [e]) && e.part.Some?
    ensures Cost.Fresh(Events(front + [e]), |front|)
  {
    var all := front + [e];
    forall i | 0 <= i < |front|
      ensures Cost.KeyOf(Events(all)[i]) != Cost.KeyOf(e.event)
    {
      assert Shaped(isolated, all[i]) && Shaped(isolated, all[|front|]);
      KeysDiffer(isolated, all[i], e);
    }
  }

  lemma {:induction false} PartsSplit(a: seq<Entry>, b: seq<Entry>, known: set<string>)
    ensures PartsUsed(a + b, known) == Plus(PartsUsed(a, known), PartsUsed(b, known))
    decreases |b|
  {
    if b == [] {
      assert a + b == a && PartsUsed(b, known) == ZERO;
      Regroup(PartsUsed(a, known), ZERO, ZERO, ZERO);
    } else {
      var front, e := b[..|b| - 1], b[|b| - 1];
      assert a + b == a + front + [e] && b == front + [e];
      hide Plus, PartsUsed;
      PartsSplit(a, front, known);
      PartsGrow(a + front, e, known);
      PartsGrow(front, e, known);
      if Usable(e) {
        Regroup(PartsUsed(a, known), PartsUsed(front, known), e.event.usage, ZERO);
      }
    }
  }

  lemma {:induction false} PlainParts(isolated: bool, entries: seq<Entry>, requests: set<string>)
    requires WellMetered(isolated, entries)
    ensures Plain(PartsUsed(entries, requests)) == PartsUsed(entries, requests)
    decreases |entries|
  {
    if entries != [] {
      PlainParts(isolated, entries[..|entries| - 1], requests);
      assert Shaped(isolated, entries[|entries| - 1]);
    }
  }

  /** Recording one more charge moves its parts to the known ones. */
  lemma {:induction false} PartsRecorded(entries: seq<Entry>, known: set<string>, request: string)
    requires request !in known
    ensures PartsUsed(entries, known + {request}) == Plus(PartsUsed(entries, known), PartsUsed(entries, {request}))
    decreases |entries|
  {
    if entries == [] {
      Regroup(ZERO, ZERO, ZERO, ZERO);
    } else {
      var front, e := entries[..|entries| - 1], entries[|entries| - 1];
      PartsRecorded(front, known, request);
      hide Plus;
      if Usable(e) {
        Regroup(PartsUsed(front, known), PartsUsed(front, {request}), e.event.usage, ZERO);
      }
    }
  }

  // ---------------------------------------------------------------- the host

  /**
   * The log, the sessions in memory, every session and request there ever was,
   * and for each record what its terminal holds besides charges and which
   * charges it misses.
   */
  datatype Host = Host(
    log: seq<Record>, meters: map<Key, Meter>, begun: set<Key>, requests: set<string>,
    own: seq<Amount>, late: seq<Amount>)

  const START := Host([], map[], {}, {}, [], [])

  datatype Step =
    | Begin(key: Key, model: Option<string>, retained: bool, isolated: bool)
    | Message(key: Key, id: string, usage: Amount)
    | StartCompaction(key: Key, request: string, origin: Origin)
    | MeterPart(key: Key, part: Part, observed: Option<Amount>)
    | Outcome(key: Key, request: string, diagnostic: Option<string>)
    | Capture(key: Key)
    | End(key: Key)
    | Dispose(key: Key)
    | Crash(keep: nat)
    | Reconcile(key: Key)
    | Write(record: Record)

  predicate Live(h: Host, key: Key) {
    key in h.meters && !h.meters[key].ended
  }

  /** A record of another run or family, or a terminal without a session id: a failed fallback start, an old record. */
  predicate Elsewhere(r: Record, run: string) {
    || r.run != run || r.SubagentTerminal? || r.OtherRecord?
    || (r.Terminal? && r.session.None? && (r.crashed && r.used.Some? ==> Plain(r.used.value) == ZERO))
  }

  ghost predicate Enabled(run: string, h: Host, step: Step) {
    match step
    case Begin(key, _, _, _) => key !in h.begun
    case Message(key, id, _) => Live(h, key) && ':' !in id
    case StartCompaction(key, request, _) => Live(h, key) && h.meters[key].retained && request !in h.requests
    case MeterPart(key, part, observed) =>
      && (observed.Some? ==> NonNegative(observed.value))
      && Live(h, key) && part.request in h.meters[key].pending
      && forall e :: e in h.meters[key].entries ==> e.part != Some(part)
    case Outcome(key, request, diagnostic) =>
      && Live(h, key) && request in h.meters[key].pending
      && (request in h.meters[key].broken ==> diagnostic.Some?)
    case Capture(key) => Live(h, key)
    case End(key) => Live(h, key)
    case Dispose(key) => key in h.meters
    case Crash(keep) => keep <= |h.log| == |h.own| == |h.late|
    case Reconcile(key) => key in h.begun && key !in h.meters && !Settled(h.log, run, key)
    case Write(r) => Elsewhere(r, run)
  }

  function Append(h: Host, r: Record, own: Amount, late: Amount): Host {
    h.(log := h.log + [r], own := h.own + [own], late := h.late + [late])
  }

  function With(h: Host, key: Key, m: Meter): Host {
    h.(meters := h.meters[key := m])
  }

  /** The outcome's usage is the sum of its parts, or unknown with one of them. */
  function OutcomeRecord(run: string, m: Meter, key: Key, request: string, diagnostic: Option<string>): Record
    requires request in m.pending
  {
    Compacted(run, request, key, m.pending[request].epoch, m.pending[request].leaf,
              if request in m.broken then None else Some(PartsUsed(m.entries, {request})), diagnostic)
  }

  /** The meter once the outcome of `request` is on record. */
  function Recorded(m: Meter, request: string): Meter {
    var settled := m.(pending := m.pending - {request});
    if request in m.broken then settled else settled.(known := m.known + {request})
  }

  ghost function TerminalRecord(run: string, m: Meter, key: Key): Record {
    Terminal(run, key.role, Some(key.session), false, m.model, Some(Metered(m.captured).(sessions := 1)))
  }

  /** What recovery writes for a session that has no terminal. */
  function CrashedRecord(run: string, key: Key): Record {
    Terminal(run, key.role, Some(key.session), true, None, Some(ZERO.(sessions := 1)))
  }

  ghost function Next(run: string, h: Host, step: Step): Host
    requires Enabled(run, h, step)
  {
    match step
    case Begin(key, model, retained, isolated) =>
      var g := With(h.(begun := h.begun + {key}), key, Meter(model, retained, isolated, [], [], map[], {}, {}, false));
      if retained then Append(g, InvocationStarted(run, key, model), ZERO, ZERO) else g
    case Message(key, id, usage) =>
      var m := h.meters[key];
      With(h, key, m.(entries := m.entries + [Entry(Cost.Message(id, Plain(usage)), None)]))
    case StartCompaction(key, request, origin) =>
      var m := h.meters[key];
      var g := With(h.(requests := h.requests + {request}), key, m.(pending := m.pending[request := origin]));
      Append(g, CompactionStarted(run, request, key, origin.epoch, origin.leaf), ZERO, ZERO)
    case MeterPart(key, part, observed) =>
      var m := h.meters[key];
      With(h, key,
           if observed.None? then m.(broken := m.broken + {part.request})
           else m.(entries := m.entries + [Entry(PartEvent(m.isolated, part, Plain(observed.value)), Some(part))]))
    case Outcome(key, request, diagnostic) =>
      var m := h.meters[key];
      Append(With(h, key, Recorded(m, request)), OutcomeRecord(run, m, key, request, diagnostic), ZERO, ZERO)
    case Capture(key) => With(h, key, h.meters[key].(captured := h.meters[key].entries))
    case End(key) =>
      var m := h.meters[key];
      Append(With(h, key, m.(ended := true)), TerminalRecord(run, m, key),
             OwnUsed(m.captured, m.known), PartsUsed(Since(m), m.known))
    case Dispose(key) => h.(meters := h.meters - {key})
    case Crash(keep) => h.(log := h.log[..keep], own := h.own[..keep], late := h.late[..keep], meters := map[])
    case Reconcile(key) => Append(h, CrashedRecord(run, key), ZERO, ZERO)
    case Write(r) => Append(h, r, if Counted(r, run) then Plain(r.used.value) else ZERO, ZERO)
  }

  // ---------------------------------------------------------------- the invariant

  /** The record may follow the log: what it does to the amounts. */
  ghost predicate Fits(log: seq<Record>, run: string, r: Record, own: Amount, late: Amount) {
    NonNegative(late) &&
    if Settles(r, run) then
      var key := Key(r.role, r.session.value);
      && !Settled(log, run, key) && r.used.Some?
      && Plus(Plain(r.used.value), late) == Plus(own, ChargesOf(log, run, Of(key)))
    else
      && late == ZERO
      && (if Counted(r, run) then Plain(r.used.value) == own && (r.Terminal? && r.crashed ==> own == ZERO)
          else own == ZERO)
      && (r.Compacted? && r.run == run ==> !Settled(log, run, r.key))
  }

  ghost predicate StartedBefore(log: seq<Record>, run: string, request: string) {
    exists i :: 0 <= i < |log| && StartedIn(log[i], run, request)
  }

  /** The record may follow the log: what it does to the accounting. */
  ghost predicate Follows(log: seq<Record>, run: string, r: Record) {
    r.run == run ==>
      match r
      case InvocationStarted(_, key, _) => !Invoked(log, run, key)
      case CompactionStarted(_, request, _, _, _) =>
        !StartedBefore(log, run, request) && !HasOutcome(log, run, request)
      case Compacted(_, request, key, _, _, usage, diagnostic) =>
        && !HasOutcome(log, run, request) && Invoked(log, run, key)
        && (usage.None? ==> diagnostic.Some?)
        && (forall i :: 0 <= i < |log| && StartedIn(log[i], run, request) ==> SameIdentity(log[i], r))
      case _ => true
  }

  ghost predicate LogSound(run: string, h: Host) {
    && |h.own| == |h.late| == |h.log|
    && (forall i :: 0 <= i < |h.log| ==> Fits(h.log[..i], run, h.log[i], h.own[i], h.late[i]))
    && (forall i :: 0 <= i < |h.log| ==> Follows(h.log[..i], run, h.log[i]))
  }

  predicate Names(r: Record, run: string, begun: set<Key>, requests: set<string>) {
    r.run == run ==>
      match r
      case InvocationStarted(_, key, _) => key in begun
      case CompactionStarted(_, request, key, _, _) => key in begun && request in requests
      case Compacted(_, request, key, _, _, _, _) => key in begun && request in requests
      case Terminal(_, role, session, _, _, _) => session.Some? ==> Key(role, session.value) in begun
      case _ => true
  }

  /** Records name only sessions that began and requests that were made. */
  predicate Registered(run: string, h: Host) {
    && (forall i :: 0 <= i < |h.log| ==> Names(h.log[i], run, h.begun, h.requests))
    && h.meters.Keys <= h.begun
  }

  /** A compaction without an outcome: who started it, and that its charge is open. */
  ghost predicate PendingSound(run: string, log: seq<Record>, key: Key, request: string, origin: Origin) {
    && StartedBefore(log, run, request) && !HasOutcome(log, run, request)
    && forall i :: 0 <= i < |log| && StartedIn(log[i], run, request) ==>
         log[i].key == key && log[i].epoch == origin.epoch && log[i].leaf == origin.leaf
  }

  ghost predicate MeterSound(run: string, log: seq<Record>, requests: set<string>, key: Key, m: Meter) {
    && m.captured <= m.entries
    && WellMetered(m.isolated, m.entries)
    && m.known <= requests && m.pending.Keys <= requests && m.known !! m.pending.Keys
    && (forall e :: e in m.entries && e.part.Some? ==> e.part.value.request in requests)
    && ChargesOf(log, run, Of(key)) == PartsUsed(m.entries, m.known)
    && !Settled(log, run, key)
    && (if m.retained then Invoked(log, run, key) else m.pending == map[])
    && forall request :: request in m.pending ==> PendingSound(run, log, key, request, m.pending[request])
  }

  ghost predicate MetersSound(run: string, h: Host) {
    forall key :: Live(h, key) ==> MeterSound(run, h.log, h.requests, key, h.meters[key])
  }

  ghost predicate HostSound(run: string, h: Host) {
    LogSound(run, h) && Registered(run, h) && MetersSound(run, h)
  }

  // ---------------------------------------------------------------- one record more

  lemma {:induction false} ChargesStay(log: seq<Record>, r: Record, run: string, key: Key, m: nat)
    requires m <= |log|
    ensures ChargeSum(log + [r], run, Of(key), m) == ChargeSum(log, run, Of(key), m)
    decreases m
  {
    if m > 0 {
      ChargesStay(log, r, run, key, m - 1);
    }
  }

  lemma ChargesGrow(log: seq<Record>, r: Record, run: string, key: Key)
    ensures ChargesOf(log + [r], run, Of(key)) ==
            if KnownCharge(r, run) && r.key == key then Plus(ChargesOf(log, run, Of(key)), Plain(r.usage.value))
            else ChargesOf(log, run, Of(key))
  {
    ChargesStay(log, r, run, key, |log|);
  }

  lemma Extends(log: seq<Record>, r: Record, run: string)
    ensures forall k :: Settled(log + [r], run, k) <==> Settled(log, run, k) || SettledBy(r, run, k)
    ensures forall k :: Invoked(log + [r], run, k) <==> Invoked(log, run, k) || InvokedIn(r, run, k)
    ensures forall q :: HasOutcome(log + [r], run, q) <==> HasOutcome(log, run, q) || OutcomeIn(r, run, q)
    ensures forall q :: StartedBefore(log + [r], run, q) <==> StartedBefore(log, run, q) || StartedIn(r, run, q)
  {
    var all := log + [r];
    assert all[|log|] == r && forall i :: 0 <= i < |log| ==> all[i] == log[i];
    forall k
      ensures Settled(all, run, k) <==> Settled(log, run, k) || SettledBy(r, run, k)
    {
      if i :| 0 <= i < |log| && SettledBy(log[i], run, k) {
        assert SettledBy(all[i], run, k);
      }
    }
    forall k
      ensures Invoked(all, run, k) <==> Invoked(log, run, k) || InvokedIn(r, run, k)
    {
      if i :| 0 <= i < |log| && InvokedIn(log[i], run, k) {
        assert InvokedIn(all[i], run, k);
      }
    }
    forall q
      ensures HasOutcome(all, run, q) <==> HasOutcome(log, run, q) || OutcomeIn(r, run, q)
    {
      if i :| 0 <= i < |log| && OutcomeIn(log[i], run, q) {
        assert OutcomeIn(all[i], run, q);
      }
    }
    forall q
      ensures StartedBefore(all, run, q) <==> StartedBefore(log, run, q) || StartedIn(r, run, q)
    {
      if i :| 0 <= i < |log| && StartedIn(log[i], run, q) {
        assert StartedIn(all[i], run, q);
      }
    }
  }

  lemma LogAppends(run: string, h: Host, r: Record, own: Amount, late: Amount)
    requires LogSound(run, h) && Fits(h.log, run, r, own, late) && Follows(h.log, run, r)
    ensures LogSound(run, Append(h, r, own, late))
  {
    var log := h.log + [r];
    forall i | 0 <= i < |log|
      ensures log[..i] == if i < |h.log| then h.log[..i] else h.log
    {}
    hide Fits, Follows;
  }

  lemma LogCut(run: string, h: Host, keep: nat)
    requires LogSound(run, h) && keep <= |h.log|
    ensures LogSound(run, h.(log := h.log[..keep], own := h.own[..keep], late := h.late[..keep], meters := map[]))
  {
    forall i | 0 <= i < keep
      ensures h.log[..keep][..i] == h.log[..i]
    {}
    hide Fits, Follows;
  }

  /** The record says nothing about the session `key` and its pending compactions. */
  predicate Irrelevant(r: Record, run: string, key: Key, m: Meter) {
    && !SettledBy(r, run, key)
    && (r.Compacted? && r.run == run ==> r.key != key && r.request !in m.pending)
    && (r.CompactionStarted? && r.run == run ==> r.request !in m.pending)
  }

  lemma PendingKept(run: string, log: seq<Record>, r: Record, key: Key, request: string, origin: Origin)
    requires PendingSound(run, log, key, request, origin)
    requires !StartedIn(r, run, request) && !OutcomeIn(r, run, request)
    ensures PendingSound(run, log + [r], key, request, origin)
  {
    Extends(log, r, run);
    hide StartedBefore, HasOutcome;
  }

  lemma MeterKept(run: string, log: seq<Record>, r: Record, few: set<string>, many: set<string>, key: Key, m: Meter)
    requires MeterSound(run, log, few, key, m) && few <= many && Irrelevant(r, run, key, m)
    ensures MeterSound(run, log + [r], many, key, m)
  {
    ChargesGrow(log, r, run, key);
    Extends(log, r, run);
    forall request | request in m.pending
      ensures PendingSound(run, log + [r], key, request, m.pending[request])
    {
      assert PendingSound(run, log, key, request, m.pending[request]);
      PendingKept(run, log, r, key, request, m.pending[request]);
    }
    hide Settled, Invoked, ChargesOf, WellMetered, PendingSound;
  }

  /** A pending compaction belongs to one session. */
  lemma OneOwner(run: string, log: seq<Record>, requests: set<string>, j: Key, k: Key, m: Meter, n: Meter, q: string)
    requires MeterSound(run, log, requests, j, m) && MeterSound(run, log, requests, k, n)
    requires q in m.pending && q in n.pending
    ensures j == k
  {
    assert PendingSound(run, log, j, q, m.pending[q]) && PendingSound(run, log, k, q, n.pending[q]);
    var i :| 0 <= i < |log| && StartedIn(log[i], run, q);
  }

  // ---------------------------------------------------------------- every step keeps it

  lemma OthersKept(run: string, h: Host, r: Record, many: set<string>, key: Key)
    requires MetersSound(run, h) && h.requests <= many
    requires forall k :: Live(h, k) && k != key ==> Irrelevant(r, run, k, h.meters[k])
    ensures forall k :: Live(h, k) && k != key ==> MeterSound(run, h.log + [r], many, k, h.meters[k])
  {
    hide MeterSound, Irrelevant;
    forall k | Live(h, k) && k != key
      ensures MeterSound(run, h.log + [r], many, k, h.meters[k])
    {
      MeterKept(run, h.log, r, h.requests, many, k, h.meters[k]);
    }
  }

  /** A session nobody began has left no trace. */
  lemma {:induction false} NoTrace(run: string, h: Host, key: Key, m: nat)
    requires Registered(run, h) && key !in h.begun && m <= |h.log|
    ensures ChargeSum(h.log, run, Of(key), m) == ZERO
    ensures !Invoked(h.log, run, key) && !Settled(h.log, run, key)
    decreases m
  {
    if m > 0 {
      NoTrace(run, h, key, m - 1);
      assert Names(h.log[m - 1], run, h.begun, h.requests);
    }
    forall i | 0 <= i < |h.log|
      ensures !InvokedIn(h.log[i], run, key) && !SettledBy(h.log[i], run, key)
    {
      assert Names(h.log[i], run, h.begun, h.requests);
    }
  }

  lemma NoRequest(run: string, h: Host, request: string)
    requires Registered(run, h) && request !in h.requests
    ensures !StartedBefore(h.log, run, request) && !HasOutcome(h.log, run, request)
  {
    forall i | 0 <= i < |h.log|
      ensures !StartedIn(h.log[i], run, request) && !OutcomeIn(h.log[i], run, request)
    {
      assert Names(h.log[i], run, h.begun, h.requests);
    }
  }

  /** One session's meter changes and nothing is written. */
  lemma MeterSwapped(run: string, h: Host, key: Key, m: Meter)
    requires HostSound(run, h) && Live(h, key) && MeterSound(run, h.log, h.requests, key, m)
    ensures HostSound(run, With(h, key, m))
  {
    hide Fits, Follows, MeterSound, Names;
  }

  /** One session's meter changes and one record is written. */
  lemma Written(run: string, h: Host, b: set<Key>, q: set<string>, key: Key, m: Meter, r: Record, own: Amount,
      late: Amount)
    requires HostSound(run, h) && h.begun <= b && h.requests <= q && key in b
    requires Fits(h.log, run, r, own, late) && Follows(h.log, run, r) && Names(r, run, b, q)
    requires m.ended || MeterSound(run, h.log + [r], q, key, m)
    requires forall k :: Live(h, k) && k != key ==> Irrelevant(r, run, k, h.meters[k])
    ensures HostSound(run, Append(With(h.(begun := b, requests := q), key, m), r, own, late))
  {
    hide Fits, Follows, MeterSound, Irrelevant;
    LogAppends(run, With(h.(begun := b, requests := q), key, m), r, own, late);
    OthersKept(run, h, r, q, key);
  }

  lemma BeginKeeps(run: string, h: Host, step: Step)
    requires HostSound(run, h) && Enabled(run, h, step) && step.Begin?
    ensures HostSound(run, Next(run, h, step))
  {
    var key := step.key;
    NoTrace(run, h, key, |h.log|);
    BeginMeter(run, h.log, h.requests, step);
    hide Fits, Follows, ChargesOf, Settled, Invoked, MeterSound;
    if step.retained {
      Written(run, h, h.begun + {key}, h.requests, key, FirstMeter(step), InvocationStarted(run, key, step.model),
              ZERO, ZERO);
    }
  }

  function FirstMeter(step: Step): Meter
    requires step.Begin?
  {
    Meter(step.model, step.retained, step.isolated, [], [], map[], {}, {}, false)
  }

  lemma BeginMeter(run: string, log: seq<Record>, requests: set<string>, step: Step)
    requires step.Begin? && !Invoked(log, run, step.key) && !Settled(log, run, step.key)
    requires ChargesOf(log, run, Of(step.key)) == ZERO
    ensures var r := InvocationStarted(run, step.key, step.model);
            && Fits(log, run, r, ZERO, ZERO) && Follows(log, run, r)
            && MeterSound(run, if step.retained then log + [r] else log, requests, step.key, FirstMeter(step))
  {
    var r := InvocationStarted(run, step.key, step.model);
    ChargesGrow(log, r, run, step.key);
    Extends(log, r, run);
    hide ChargesOf, Settled, Invoked, HasOutcome, StartedBefore, PendingSound;
  }

  lemma MessageKeeps(run: string, h: Host, step: Step)
    requires HostSound(run, h) && Enabled(run, h, step) && step.Message?
    ensures HostSound(run, Next(run, h, step))
  {
    var m := h.meters[step.key];
    var e := Entry(Cost.Message(step.id, Plain(step.usage)), None);
    hide Fits, Follows, MeterSound;
    EntryAdded(run, h.log, h.requests, step.key, m, e);
    MeterSwapped(run, h, step.key, m.(entries := m.entries + [e]));
  }

  lemma PartKeeps(run: string, h: Host, step: Step)
    requires HostSound(run, h) && Enabled(run, h, step) && step.MeterPart?
    ensures HostSound(run, Next(run, h, step))
  {
    var m := h.meters[step.key];
    hide Fits, Follows, ChargesOf, Settled, Invoked, PartsUsed, PendingSound, WellMetered;
    assert MeterSound(run, h.log, h.requests, step.key, m);
    if step.observed.Some? {
      var e := Entry(PartEvent(m.isolated, step.part, Plain(step.observed.value)), Some(step.part));
      EntryAdded(run, h.log, h.requests, step.key, m, e);
      MeterSwapped(run, h, step.key, m.(entries := m.entries + [e]));
    } else {
      MeterSwapped(run, h, step.key, m.(broken := m.broken + {step.part.request}));
    }
  }

  lemma EntryAdded(run: string, log: seq<Record>, requests: set<string>, key: Key, m: Meter, e: Entry)
    requires MeterSound(run, log, requests, key, m) && Shaped(m.isolated, e)
    requires e.part.Some? ==> e.part.value.request in m.pending && forall d :: d in m.entries ==> d.part != e.part
    ensures MeterSound(run, log, requests, key, m.(entries := m.entries + [e]))
  {
    PartsGrow(m.entries, e, m.known);
    hide ChargesOf, Settled, Invoked, PartsUsed, PendingSound, Shaped;
  }

  lemma StartFits(run: string, log: seq<Record>, key: Key, q: string, o: Origin)
    requires !StartedBefore(log, run, q) && !HasOutcome(log, run, q)
    ensures var r := CompactionStarted(run, q, key, o.epoch, o.leaf);
            Fits(log, run, r, ZERO, ZERO) && Follows(log, run, r)
  {
    hide StartedBefore, HasOutcome;
  }

  lemma StartKeeps(run: string, h: Host, step: Step)
    requires HostSound(run, h) && Enabled(run, h, step) && step.StartCompaction?
    ensures HostSound(run, Next(run, h, step))
  {
    var key, q, origin := step.key, step.request, step.origin;
    var m := h.meters[key];
    NoRequest(run, h, q);
    StartFits(run, h.log, key, q, origin);
    hide Fits, Follows, ChargesOf, Settled, Invoked, PartsUsed, PendingSound, WellMetered, HasOutcome, StartedBefore;
    StartMeter(run, h.log, h.requests, key, m, q, origin);
    Written(run, h, h.begun, h.requests + {q}, key, m.(pending := m.pending[q := origin]),
            CompactionStarted(run, q, key, origin.epoch, origin.leaf), ZERO, ZERO);
  }

  lemma StartMeter(run: string, log: seq<Record>, requests: set<string>, key: Key, m: Meter, q: string, o: Origin)
    requires MeterSound(run, log, requests, key, m) && m.retained && q !in requests
    requires !StartedBefore(log, run, q) && !HasOutcome(log, run, q)
    ensures MeterSound(run, log + [CompactionStarted(run, q, key, o.epoch, o.leaf)], requests + {q}, key,
                       m.(pending := m.pending[q := o]))
  {
    var r := CompactionStarted(run, q, key, o.epoch, o.leaf);
    MeterKept(run, log, r, requests, requests + {q}, key, m);
    assert PendingSound(run, log + [r], key, q, o) by {
      Extends(log, r, run);
    }
    hide Settled, Invoked, PartsUsed, ChargesOf, PendingSound, WellMetered, StartedBefore, HasOutcome;
  }

  lemma OutcomeKeeps(run: string, h: Host, step: Step)
    requires HostSound(run, h) && Enabled(run, h, step) && step.Outcome?
    ensures HostSound(run, Next(run, h, step))
  {
    var key, q := step.key, step.request;
    var m := h.meters[key];
    var r := OutcomeRecord(run, m, key, q, step.diagnostic);
    OutcomeFits(run, h.log, h.requests, key, m, q, step.diagnostic);
    OutcomeMeter(run, h.log, h.requests, key, m, q, step.diagnostic);
    assert q in h.requests by {
      assert MeterSound(run, h.log, h.requests, key, m);
    }
    forall k | Live(h, k) && k != key
      ensures Irrelevant(r, run, k, h.meters[k])
    {
      if q in h.meters[k].pending {
        OneOwner(run, h.log, h.requests, key, k, m, h.meters[k], q);
      }
    }
    hide Fits, Follows, MeterSound, Irrelevant;
    Written(run, h, h.begun, h.requests, key, Recorded(m, q), r, ZERO, ZERO);
  }

  lemma OutcomeFits(run: string, log: seq<Record>, requests: set<string>, key: Key, m: Meter, q: string,
      d: Option<string>)
    requires MeterSound(run, log, requests, key, m) && q in m.pending && (q in m.broken ==> d.Some?)
    ensures var r := OutcomeRecord(run, m, key, q, d);
            Fits(log, run, r, ZERO, ZERO) && Follows(log, run, r)
  {
    assert PendingSound(run, log, key, q, m.pending[q]);
    hide ChargesOf, Settled, Invoked, PartsUsed, WellMetered, HasOutcome, StartedBefore;
  }

  lemma OutcomeMeter(run: string, log: seq<Record>, requests: set<string>, key: Key, m: Meter, q: string,
      d: Option<string>)
    requires MeterSound(run, log, requests, key, m) && q in m.pending
    ensures MeterSound(run, log + [OutcomeRecord(run, m, key, q, d)], requests, key, Recorded(m, q))
  {
    var r, n := OutcomeRecord(run, m, key, q, d), Recorded(m, q);
    OutcomeCharge(run, log, key, m, q, d);
    assert !SettledBy(r, run, key) && !InvokedIn(r, run, key);
    Extends(log, r, run);
    forall request | request in n.pending
      ensures PendingSound(run, log + [r], key, request, n.pending[request])
    {
      assert PendingSound(run, log, key, request, m.pending[request]);
      PendingKept(run, log, r, key, request, m.pending[request]);
    }
    hide Settled, Invoked, PartsUsed, ChargesOf, PendingSound, WellMetered, StartedBefore, HasOutcome, OutcomeRecord;
  }

  lemma OutcomeCharge(run: string, log: seq<Record>, key: Key, m: Meter, q: string, d: Option<string>)
    requires q in m.pending && q !in m.known && WellMetered(m.isolated, m.entries)
    requires ChargesOf(log, run, Of(key)) == PartsUsed(m.entries, m.known)
    ensures ChargesOf(log + [OutcomeRecord(run, m, key, q, d)], run, Of(key)) ==
            PartsUsed(m.entries, Recorded(m, q).known)
  {
    hide PartsUsed, ChargesOf, WellMetered, Plus, Plain;
    PartsRecorded(m.entries, m.known, q);
    PlainParts(m.isolated, m.entries, {q});
    ChargesGrow(log, OutcomeRecord(run, m, key, q, d), run, key);
  }

  /** The captured usage and the later charges against all the charges of the session. */
  lemma CaptureSplits(m: Meter)
    requires m.captured <= m.entries && WellMetered(m.isolated, m.entries)
    ensures Plus(Plain(Metered(m.captured)), PartsUsed(Since(m), m.known)) ==
            Plus(OwnUsed(m.captured, m.known), PartsUsed(m.entries, m.known))
  {
    assert m.captured + Since(m) == m.entries;
    assert WellMetered(m.isolated, m.captured);
    hide PartsUsed, OwnUsed, Metered, WellMetered, Since;
    MeterSplits(m.isolated, m.captured, m.known);
    PartsSplit(m.captured, Since(m), m.known);
    MeteredPlain(m.isolated, m.captured);
    assert Plain(Metered(m.captured)) == Metered(m.captured);
    hide Plus, Plain;
    Regroup(OwnUsed(m.captured, m.known), PartsUsed(m.captured, m.known), PartsUsed(Since(m), m.known), ZERO);
  }

  lemma {:induction false} PartsNonNegative(isolated: bool, entries: seq<Entry>, known: set<string>)
    requires WellMetered(isolated, entries)
    ensures NonNegative(PartsUsed(entries, known))
    decreases |entries|
  {
    if entries != [] {
      PartsNonNegative(isolated, entries[..|entries| - 1], known);
      assert Shaped(isolated, entries[|entries| - 1]);
    }
  }

  lemma TerminalFits(run: string, log: seq<Record>, requests: set<string>, key: Key, m: Meter)
    requires MeterSound(run, log, requests, key, m)
    ensures Fits(log, run, TerminalRecord(run, m, key), OwnUsed(m.captured, m.known), PartsUsed(Since(m), m.known))
  {
    assert WellMetered(m.isolated, Since(m));
    hide PartsUsed, OwnUsed, Metered, Settled, ChargesOf, Since, PendingSound, WellMetered, Invoked, Plus, NonNegative;
    PartsNonNegative(m.isolated, Since(m), m.known);
    CaptureSplits(m);
    assert Plain(TerminalRecord(run, m, key).used.value) == Plain(Metered(m.captured));
    assert Key(key.role, key.session) == key;
  }

  lemma {:induction false} MeteredPlain(isolated: bool, entries: seq<Entry>)
    requires WellMetered(isolated, entries)
    ensures Metered(entries).sessions == 0
    decreases |entries|
  {
    if entries != [] {
      var front, e := entries[..|entries| - 1], entries[|entries| - 1];
      assert entries == front + [e] && Shaped(isolated, e);
      MeteredPlain(isolated, front);
      MeteredGrows(front, e);
    }
  }

  lemma EndKeeps(run: string, h: Host, step: Step)
    requires HostSound(run, h) && Enabled(run, h, step) && step.End?
    ensures HostSound(run, Next(run, h, step))
  {
    var key := step.key;
    var m := h.meters[key];
    var r := TerminalRecord(run, m, key);
    hide MeterSound, OwnUsed, PartsUsed, Metered, Since;
    TerminalFits(run, h.log, h.requests, key, m);
    hide Fits, LogSound;
    assert Follows(h.log, run, r) && Names(r, run, h.begun, h.requests);
    assert forall k :: Live(h, k) && k != key ==> Irrelevant(r, run, k, h.meters[k]);
    hide Follows, Names, Irrelevant, Registered, TerminalRecord;
    Written(run, h, h.begun, h.requests, key, m.(ended := true), r, OwnUsed(m.captured, m.known),
            PartsUsed(Since(m), m.known));
  }

  lemma QuietKeeps(run: string, h: Host, step: Step)
    requires HostSound(run, h) && Enabled(run, h, step)
    requires step.Capture? || step.Dispose? || step.Crash?
    ensures HostSound(run, Next(run, h, step))
  {
    if step.Crash? {
      LogCut(run, h, step.keep);
    }
    assert step.Capture? ==> MeterSound(run, h.log, h.requests, step.key, h.meters[step.key]);
    hide Fits, Follows, ChargesOf, Settled, Invoked, PartsUsed, PendingSound, WellMetered;
  }

  lemma WriteKeeps(run: string, h: Host, step: Step)
    requires HostSound(run, h) && Enabled(run, h, step)
    requires step.Reconcile? || step.Write?
    ensures HostSound(run, Next(run, h, step))
  {
    var r := if step.Reconcile? then CrashedRecord(run, step.key) else step.record;
    var own := if step.Write? && Counted(r, run) then Plain(r.used.value) else ZERO;
    LogAppends(run, h, r, own, ZERO);
    forall k | Live(h, k)
      ensures MeterSound(run, h.log + [r], h.requests, k, h.meters[k])
    {
      MeterKept(run, h.log, r, h.requests, h.requests, k, h.meters[k]);
    }
    hide Fits, Follows, MeterSound;
  }

  lemma StepKeeps(run: string, h: Host, step: Step)
    requires HostSound(run, h) && Enabled(run, h, step)
    ensures HostSound(run, Next(run, h, step))
  {
    hide HostSound, Next, Enabled;
    match step
    case Begin(_, _, _, _) => BeginKeeps(run, h, step);
    case Message(_, _, _) => MessageKeeps(run, h, step);
    case StartCompaction(_, _, _) => StartKeeps(run, h, step);
    case MeterPart(_, _, _) => PartKeeps(run, h, step);
    case Outcome(_, _, _) => OutcomeKeeps(run, h, step);
    case End(_) => EndKeeps(run, h, step);
    case Reconcile(_) => WriteKeeps(run, h, step);
    case Write(_) => WriteKeeps(run, h, step);
    case _ => QuietKeeps(run, h, step);
  }

  // ---------------------------------------------------------------- whole histories

  /** The host after `steps`; none if one of them is impossible. */
  ghost function Reached(run: string, steps: seq<Step>): Option<Host> {
    if steps == [] then Some(START)
    else
      var h, step := Reached(run, steps[..|steps| - 1]), steps[|steps| - 1];
      if h.Some? && Enabled(run, h.value, step) then Some(Next(run, h.value, step)) else None
  }

  lemma {:induction false} HistoryKeeps(run: string, steps: seq<Step>)
    ensures forall h :: Reached(run, steps) == Some(h) ==> HostSound(run, h)
    decreases |steps|
  {
    if steps != [] {
      var front := steps[..|steps| - 1];
      HistoryKeeps(run, front);
      hide HostSound, Next, Enabled;
      if Reached(run, steps).Some? {
        StepKeeps(run, Reached(run, front).value, steps[|steps| - 1]);
      }
    }
  }

  // ---------------------------------------------------------------- what every log satisfies

  lemma {:induction false} ChargesOfPrefix(log: seq<Record>, run: string, key: Key, i: nat, m: nat)
    requires m <= i <= |log|
    ensures ChargeSum(log[..i], run, Of(key), m) == ChargeSum(log, run, Of(key), m)
    decreases m
  {
    if m > 0 {
      ChargesOfPrefix(log, run, key, i, m - 1);
    }
  }

  /** Once a session is settled no charge of it follows. */
  lemma {:induction false} NoMoreCharges(run: string, h: Host, i: nat, m: nat)
    requires LogSound(run, h) && i < m <= |h.log| && Settles(h.log[i], run)
    ensures var key := Key(h.log[i].role, h.log[i].session.value);
            ChargeSum(h.log, run, Of(key), m) == ChargesOf(h.log[..i], run, Of(key))
    decreases m
  {
    var key := Key(h.log[i].role, h.log[i].session.value);
    if m == i + 1 {
      ChargesOfPrefix(h.log, run, key, i, i);
    } else {
      NoMoreCharges(run, h, i, m - 1);
      var before := h.log[..m - 1];
      assert Fits(before, run, h.log[m - 1], h.own[m - 1], h.late[m - 1]);
      assert SettledBy(before[i], run, key);
    }
  }

  function Minus(a: Amount, b: Amount): Amount {
    Amount(a.input - b.input, a.output - b.output, a.cacheRead - b.cacheRead, a.cacheWrite - b.cacheWrite,
           a.tokens - b.tokens, a.cost - b.cost, a.sessions - b.sessions)
  }

  function Net(own: seq<Amount>, late: seq<Amount>): seq<Amount>
    requires |own| == |late|
  {
    seq(|own|, i requires 0 <= i < |own| => Minus(own[i], late[i]))
  }

  /** What the host writes is honest: terminals hold their own usage and charges, less the late ones. */
  lemma LogIsHonest(run: string, h: Host)
    requires LogSound(run, h)
    ensures Honest(h.log, run, Net(h.own, h.late))
  {
    var net := Net(h.own, h.late);
    forall i | 0 <= i < |h.log|
      ensures HonestAt(h.log, run, net[i], h.log[i])
    {
      assert Fits(h.log[..i], run, h.log[i], h.own[i], h.late[i]);
      if Settles(h.log[i], run) {
        NoMoreCharges(run, h, i, |h.log|);
      }
    }
    forall i, j, key | 0 <= i < j < |h.log| && SettledBy(h.log[i], run, key)
      ensures !SettledBy(h.log[j], run, key)
    {
      assert Fits(h.log[..j], run, h.log[j], h.own[j], h.late[j]);
      assert SettledBy(h.log[..j][i], run, key);
    }
  }

  lemma NetStep(net: Amount, missed: Amount, own: Amount, late: Amount)
    ensures Plus(Plus(net, Minus(own, late)), Plus(missed, late)) == Plus(Plus(net, missed), own)
  {}

  lemma {:induction false} NetSums(own: seq<Amount>, late: seq<Amount>, n: nat)
    requires n <= |own| == |late|
    ensures Plus(OwnSum(Net(own, late), n), OwnSum(late, n)) == OwnSum(own, n)
    decreases n
  {
    if n == 0 {
      Regroup(ZERO, ZERO, ZERO, ZERO);
    } else {
      NetSums(own, late, n - 1);
      assert Net(own, late)[n - 1] == Minus(own[n - 1], late[n - 1]);
      hide Plus, Minus, Net;
      NetStep(OwnSum(Net(own, late), n - 1), OwnSum(late, n - 1), own[n - 1], late[n - 1]);
    }
  }

  /** The records a host writes are ones the accounting accepts. */
  lemma LogIsConsistent(run: string, h: Host, live: set<string>)
    requires LogSound(run, h)
    ensures Consistent(h.log, run, live)
  {
    var log := h.log;
    forall i, j | 0 <= i < j < |log| && log[i].run == run == log[j].run
      ensures !(log[i].CompactionStarted? && StartedIn(log[j], run, log[i].request))
      ensures !(log[i].InvocationStarted? && InvokedIn(log[j], run, log[i].key))
      ensures !(log[i].Compacted? && OutcomeIn(log[j], run, log[i].request))
      ensures !(log[i].Compacted? && StartedIn(log[j], run, log[i].request))
    {
      assert Follows(log[..j], run, log[j]);
      assert log[..j][i] == log[i];
    }
    forall i | 0 <= i < |log|
      ensures Sound(log, run, live, log[i])
    {
      assert Follows(log[..i], run, log[i]);
      if log[i].Compacted? && log[i].run == run {
        forall j | 0 <= j < |log| && StartedIn(log[j], run, log[i].request)
          ensures SameIdentity(log[j], log[i])
        {
          assert j < i ==> log[..i][j] == log[j];
        }
        var j :| 0 <= j < i && InvokedIn(log[..i][j], run, log[i].key);
        assert InvokedIn(log[j], run, log[i].key);
      }
    }
    hide Sound;
  }

  // ---------------------------------------------------------------- main results

  ghost function Missed(h: Host): Amount {
    OwnSum(h.late, |h.late|)
  }

  ghost function OwnUsage(h: Host): Amount {
    OwnSum(h.own, |h.own|)
  }

  /**
   * After every history and for every set of live sessions the roll-up accepts
   * the log; what it reports, what the live host holds and what terminals
   * missed are the usage metered beside charges and every known charge once.
   */
  lemma ChargesBalance(run: string, steps: seq<Step>, live: set<string>, h: Host)
    requires Reached(run, steps) == Some(h)
    ensures Consistent(h.log, run, live)
    ensures Plus(Plus(Plain(RunTotal(h.log, run, live)), ChargesOf(h.log, run, HeldLive(live))), Missed(h)) ==
            Plus(OwnUsage(h), ChargesOf(h.log, run, Known))
  {
    HistoryKeeps(run, steps);
    hide Reached;
    LogIsConsistent(run, h, live);
    LogIsHonest(run, h);
    HonestLogsBalance(h.log, run, live, Net(h.own, h.late));
    NetSums(h.own, h.late, |h.own|);
    hide Plus, Plain, RunTotal, ChargesOf, OwnSum, LogSound, Consistent, Honest;
    Regroup(OwnSum(Net(h.own, h.late), |h.own|), ChargesOf(h.log, run, Known), OwnSum(h.late, |h.late|), ZERO);
  }

  /** No terminal was written without a charge its session had metered. */
  predicate NothingMissed(h: Host) {
    forall i :: 0 <= i < |h.late| ==> h.late[i] == ZERO
  }

  /** Nothing was metered since the capture whenever a terminal was written. */
  ghost predicate Timely(run: string, steps: seq<Step>) {
    steps != [] ==>
      var front, step := steps[..|steps| - 1], steps[|steps| - 1];
      Timely(run, front) && (step.End? ==> forall h :: Reached(run, front) == Some(h) ==> UpToDate(h, step.key))
  }

  predicate UpToDate(h: Host, key: Key) {
    key in h.meters ==> h.meters[key].captured == h.meters[key].entries
  }

  lemma NonNegativeSum(a: Amount, b: Amount)
    requires NonNegative(a) && NonNegative(b)
    ensures NonNegative(Plus(a, b))
    ensures Plus(a, b) == ZERO ==> a == ZERO && b == ZERO
    ensures a == ZERO ==> Plus(a, b) == b
  {}

  lemma SumStep(late: seq<Amount>, n: nat)
    requires 0 < n <= |late|
    ensures OwnSum(late, n) == Plus(OwnSum(late, n - 1), late[n - 1])
  {}

  lemma EmptySum(late: seq<Amount>)
    ensures OwnSum(late, 0) == ZERO && NonNegative(ZERO)
  {}

  lemma {:induction false} MissedIsSum(late: seq<Amount>, n: nat, i: nat)
    requires i < n <= |late| && forall k :: 0 <= k < |late| ==> NonNegative(late[k])
    ensures NonNegative(OwnSum(late, n))
    ensures OwnSum(late, n) == ZERO ==> late[i] == ZERO
    decreases n
  {
    hide OwnSum, NonNegative, Plus;
    SumStep(late, n);
    if n == 1 {
      EmptySum(late);
    } else {
      MissedIsSum(late, n - 1, if i < n - 1 then i else 0);
    }
    NonNegativeSum(OwnSum(late, n - 1), late[n - 1]);
  }

  lemma {:induction false} NothingIsZero(late: seq<Amount>, n: nat)
    requires n <= |late| && forall i :: 0 <= i < n ==> late[i] == ZERO
    ensures OwnSum(late, n) == ZERO
    decreases n
  {
    if n > 0 {
      NothingIsZero(late, n - 1);
    }
  }

  lemma {:induction false} TimelyMissesNothing(run: string, steps: seq<Step>)
    requires Timely(run, steps)
    ensures forall h :: Reached(run, steps) == Some(h) ==> NothingMissed(h)
    decreases |steps|
  {
    if steps != [] {
      var front, step := steps[..|steps| - 1], steps[|steps| - 1];
      TimelyMissesNothing(run, front);
      var before := Reached(run, front);
      hide Timely, OwnUsed, Metered, Reached, Enabled;
      if Reached(run, steps).Some? {
        assert step.End? ==> Since(before.value.meters[step.key]) == [];
      }
    }
  }

  /** Everything metered is in the run's total or with the live host, once. */
  ghost predicate Exact(run: string, h: Host, live: set<string>) {
    Plus(Plain(RunTotal(h.log, run, live)), ChargesOf(h.log, run, HeldLive(live))) ==
    Plus(OwnUsage(h), ChargesOf(h.log, run, Known))
  }

  lemma MissedZero(run: string, h: Host)
    requires LogSound(run, h)
    ensures Missed(h) == ZERO <==> NothingMissed(h)
  {
    forall i | 0 <= i < |h.late|
      ensures NonNegative(h.late[i])
    {
      assert Fits(h.log[..i], run, h.log[i], h.own[i], h.late[i]);
    }
    hide NonNegative, Plus, Fits, OwnSum;
    forall i | 0 <= i < |h.late|
      ensures Missed(h) == ZERO ==> h.late[i] == ZERO
    {
      MissedIsSum(h.late, |h.late|, i);
    }
    if NothingMissed(h) {
      NothingIsZero(h.late, |h.late|);
    }
  }

  /**
   * The run's total and what the live host holds are the usage metered beside
   * charges and every known charge once, if and only if no terminal was
   * written without a charge its session had metered.
   */
  lemma EveryChargeCountsOnce(run: string, steps: seq<Step>, live: set<string>, h: Host)
    requires Reached(run, steps) == Some(h)
    ensures Exact(run, h, live) <==> NothingMissed(h)
    ensures Timely(run, steps) ==> NothingMissed(h)
  {
    HistoryKeeps(run, steps);
    if Timely(run, steps) {
      TimelyMissesNothing(run, steps);
    }
    hide Reached, Timely, NothingMissed, Registered, MetersSound;
    ChargesBalance(run, steps, live, h);
    MissedZero(run, h);
    Cancel(Plus(Plain(RunTotal(h.log, run, live)), ChargesOf(h.log, run, HeldLive(live))), Missed(h),
           Plus(OwnUsage(h), ChargesOf(h.log, run, Known)));
    hide *;
  }

  lemma Cancel(a: Amount, missed: Amount, b: Amount)
    requires Plus(a, missed) == b
    ensures a == b <==> missed == ZERO
  {}

  /** A session in memory holds its own usage and exactly its recorded charges. */
  lemma LiveMetersHold(run: string, steps: seq<Step>, h: Host, key: Key)
    requires Reached(run, steps) == Some(h) && Live(h, key)
    ensures var m := h.meters[key];
            Metered(m.entries) == Plus(OwnUsed(m.entries, m.known), ChargesOf(h.log, run, Of(key)))
  {
    HistoryKeeps(run, steps);
    assert MeterSound(run, h.log, h.requests, key, h.meters[key]);
    MeterSplits(h.meters[key].isolated, h.meters[key].entries, h.meters[key].known);
  }

  // ---------------------------------------------------------------- a late charge

  const PAID := Amount(0, 0, 0, 0, 0, 5.0, 0)
  const HUB := Key("hub", "s")
  const FIRST_PART := Part("q", 0)
  const TIP := Origin(1, "tip")
  const OVERTAKEN: seq<Step> := [
    Begin(HUB, None, true, true), StartCompaction(HUB, "q", TIP), Capture(HUB),
    MeterPart(HUB, FIRST_PART, Some(PAID)), Outcome(HUB, "q", None), End(HUB)]

  const FIRST_ENTRY := Entry(PartEvent(true, FIRST_PART, PAID), Some(FIRST_PART))
  const IDLE := Meter(None, true, true, [], [], map[], {}, {}, false)
  const OPEN := IDLE.(pending := map["q" := TIP])
  const METERED := OPEN.(entries := [FIRST_ENTRY])
  const DONE := IDLE.(entries := [FIRST_ENTRY], known := {"q"})

  predicate At(h: Host, m: Meter, requests: set<string>) {
    HUB in h.meters && h.meters[HUB] == m && h.requests == requests
  }

  lemma OnePart()
    ensures PartsUsed(Since(DONE), {"q"}) == PAID
  {
    assert Since(DONE) == [] + [FIRST_ENTRY];
    PartsGrow([], FIRST_ENTRY, {"q"});
  }

  lemma OneMore(run: string, steps: seq<Step>, h: Host, step: Step)
    requires Reached(run, steps) == Some(h) && Enabled(run, h, step)
    ensures Reached(run, steps + [step]) == Some(Next(run, h, step))
  {
    assert (steps + [step])[..|steps|] == steps;
  }

  lemma LateSteps(run: string) returns (h: Host)
    ensures Reached(run, OVERTAKEN) == Some(h)
    ensures !NothingMissed(h)
  {
    OnePart();
    hide PartsUsed, OwnUsed, Metered, ChargeId, Since, PartEvent;
    var h1 := Next(run, START, OVERTAKEN[0]);
    assert At(h1, IDLE, {});
    var h2 := Next(run, h1, OVERTAKEN[1]);
    assert At(h2, OPEN, {"q"});
    var h3 := Next(run, h2, OVERTAKEN[2]);
    assert At(h3, OPEN, {"q"});
    var h4 := Next(run, h3, OVERTAKEN[3]);
    assert At(h4, METERED, {"q"});
    var h5 := Next(run, h4, OVERTAKEN[4]);
    assert OPEN.pending - {"q"} == map[];
    assert At(h5, DONE, {"q"});
    h := Next(run, h5, OVERTAKEN[5]);
    assert h.late[|h.late| - 1] == PAID != ZERO;
    assert Reached(run, []) == Some(START);
    hide Reached, Next, Enabled;
    OneMore(run, [], START, OVERTAKEN[0]);
    OneMore(run, [] + [OVERTAKEN[0]], h1, OVERTAKEN[1]);
    var two := [] + [OVERTAKEN[0]] + [OVERTAKEN[1]];
    OneMore(run, two, h2, OVERTAKEN[2]);
    OneMore(run, two + [OVERTAKEN[2]], h3, OVERTAKEN[3]);
    var four := two + [OVERTAKEN[2]] + [OVERTAKEN[3]];
    OneMore(run, four, h4, OVERTAKEN[4]);
    OneMore(run, four + [OVERTAKEN[4]], h5, OVERTAKEN[5]);
    assert four + [OVERTAKEN[4]] + [OVERTAKEN[5]] == OVERTAKEN;
  }

  /** A charge metered between the capture and the terminal is lost: settled, but in no terminal. */
  lemma LateChargeIsLost(run: string, live: set<string>)
    ensures exists h :: Reached(run, OVERTAKEN) == Some(h) && !Exact(run, h, live)
  {
    hide Reached, Exact, NothingMissed;
    var h := LateSteps(run);
    EveryChargeCountsOnce(run, OVERTAKEN, live, h);
  }
}
