/**
 * How often a model is tried: each entry of a role's list once and once more
 * per retry it allows, in the order of the list, while sessions fail for the
 * model's sake alone. Any other failure is the process's last session.
 */
module Attempts {
  import opened Wrappers
  import opened Machine
  import opened Protocol
  import opened Ledger
  import opened Trail
  import opened Invariants
  import opened Bounds
  import opened Histories
  import opened Verdicts

  // ---------------------------------------------------------------- sessions that fail

  /** The host spawns the session. */
  predicate Spawns(a: Answer) {
    a.Reply? && a.spawned
  }

  /** Its prompt ends in a model error, whatever it captured. */
  predicate FailsWithModel(a: Answer) {
    a.Reply? && a.turn.before != Some(UserAborted) && a.turn.after == Some(ModelFailure)
  }

  /** Sessions that answer one prompt each and fail so. */
  predicate FailingSessions(tape: seq<Answer>) {
    && |tape| % 2 == 0
    && forall i :: 0 <= i < |tape| ==> if i % 2 == 0 then Spawns(tape[i]) else FailsWithModel(tape[i])
  }

  function UsageOf(tape: seq<Answer>): nat
    requires FailingSessions(tape)
  {
    if tape == [] then 0 else UsageOf(tape[..|tape| - 2]) + tape[|tape| - 1].turn.usage
  }

  /** The cap, if there is one, is above what the sessions cost. */
  predicate Affordable(cfg: Config, log: seq<Record>, tape: seq<Answer>)
    requires FailingSessions(tape)
  {
    cfg.cap.Some? ==> Spent(log) + UsageOf(tape) < cfg.cap.value
  }

  /** How many attempts the first `m` entries of the list get. */
  function Before(models: seq<nat>, m: nat): nat
    requires m <= |models|
  {
    if m == 0 then 0 else Before(models, m - 1) + models[m - 1] + 1
  }

  // ---------------------------------------------------------------- one session

  /** A session of the visit is due. */
  predicate SessionDue(cfg: Config, st: State, v: Visit) {
    WellFormed(cfg.def) && st.phase == Spawning(v) && st.cp.current == At(v.role) && st.cp.active.None?
  }

  /** The four records of a session of the visit that failed with a model error. */
  predicate FailedSession(log: seq<Record>, p: nat, v: Visit, usage: nat) {
    && p + 4 <= |log|
    && log[p].Started? && log[p].role == v.role && log[p].visitIndex == v.index
    && log[p + 1].Snapshot?
    && log[p + 2].Terminal? && Closes(log[p], log[p + 2])
    && log[p + 2].ending == Failed(FromHost(ModelFailure)) && log[p + 2].cost == usage
    && log[p + 3].Snapshot?
  }

  /** The state after the session's terminal and snapshot, before what follows is decided. */
  ghost predicate SessionFailed(st: State, v: Visit, usage: nat, closed: State) {
    && closed.cp == st.cp && closed.forced == st.forced && closed.nextVisit == st.nextVisit
    && st.log <= closed.log && |closed.log| == |st.log| + 4 && FailedSession(closed.log, |st.log|, v, usage)
    && Spent(closed.log) == Spent(st.log) + usage && NumStarts(closed.log) == NumStarts(st.log) + 1
  }

  /** Below the cap a model error fails the session, whatever was captured. */
  lemma ModelErrorFails(cfg: Config, st: State, x: Live, t: Turn)
    requires WellFormed(cfg.def) && t.before != Some(UserAborted) && t.after == Some(ModelFailure)
    requires !CapReached(cfg, st.log, t.usage)
    ensures OnTurn(cfg, st, x, t) == Fail(cfg, st, x, FromHost(ModelFailure), t.usage, Some(ModelFailure))
  {
    hide Fail, CapReached, Decide, ValidateEmission;
  }

  lemma FourRecords(log: seq<Record>, v: Visit, a: Record, b: Record, c: Record, d: Record)
    requires a.Started? && a.role == v.role && a.visitIndex == v.index && b.Snapshot? && d.Snapshot?
    requires c.Terminal? && Closes(a, c) && c.ending == Failed(FromHost(ModelFailure))
    ensures var whole := log + [a, b] + [c, d];
            && log <= whole && |whole| == |log| + 4 && FailedSession(whole, |log|, v, c.cost)
            && Spent(whole) == Spent(log) + c.cost && NumStarts(whole) == NumStarts(log) + 1
  {
    SpentOfPair(log, a, b);
    SpentOfPair(log + [a, b], c, d);
    NumStartsOfTwo(a, b);
    NumStartsOfTwo(c, d);
    NumStartsAppend(log, [a, b]);
    NumStartsAppend(log + [a, b], [c, d]);
    hide Spent, NumStarts;
  }

  lemma SessionOnRecord(cfg: Config, st: State, v: Visit, spawn: Answer, usage: nat) returns (closed: State)
    requires SessionDue(cfg, st, v) && Spawns(spawn)
    ensures SessionFailed(st, v, usage, closed)
    ensures var mid := Step(cfg, st, spawn);
            && mid.phase.Prompting? && mid.phase.live.visit == v && Spent(mid.log) == Spent(st.log)
            && Close(mid, mid.phase.live, Failed(FromHost(ModelFailure)), usage) == Some(closed)
  {
    hide Spent, NumStarts, FailedSession;
    var mid := Step(cfg, st, spawn);
    var x := mid.phase.live;
    closed := Close(mid, x, Failed(FromHost(ModelFailure)), usage).value;
    var a, b := mid.log[|st.log|], mid.log[|st.log| + 1];
    var c, d := closed.log[|st.log| + 2], closed.log[|st.log| + 3];
    assert mid.log == st.log + [a, b] && closed.log == st.log + [a, b] + [c, d];
    FourRecords(st.log, v, a, b, c, d);
    SpentOfPair(st.log, a, b);
  }

  lemma OneAttempt(cfg: Config, st: State, v: Visit, spawn: Answer, turn: Answer) returns (closed: State)
    requires SessionDue(cfg, st, v) && Spawns(spawn) && FailsWithModel(turn)
    requires !CapReached(cfg, st.log, turn.turn.usage)
    ensures SessionFailed(st, v, turn.turn.usage, closed) && !CapReached(cfg, closed.log, 0)
    ensures Step(cfg, Step(cfg, st, spawn), turn) == AfterFailure(cfg, closed, v, Some(ModelFailure))
  {
    closed := SessionOnRecord(cfg, st, v, spawn, turn.turn.usage);
    hide AfterFailure, Close, Spent, NumStarts, FailedSession, OnSpawn, OnTurn;
    var mid := Step(cfg, st, spawn);
    ModelErrorFails(cfg, mid, mid.phase.live, turn.turn);
  }

  // ---------------------------------------------------------------- the order of attempts

  /** What is noted once retry `j` of entry `m` has failed and another attempt follows. */
  predicate NotedAfter(models: seq<nat>, role: Role, m: nat, j: nat, r: Record)
    requires m < |models|
  {
    if j < models[m] then r == ModelRetry(role, j + 1, models[m]) else r == ModelFallback(role, m + 1)
  }

  /** Retry `j` of entry `m` is on record, five records for each attempt from `base` on, its note the fifth. */
  predicate OnRecord(models: seq<nat>, v: Visit, tape: seq<Answer>, log: seq<Record>, base: nat, m: nat, j: nat)
    requires m < |models|
  {
    var k := Before(models, m) + j;
    && 2 * k + 1 < |tape| && tape[2 * k + 1].Reply? && base + 5 * k + 4 < |log|
    && FailedSession(log, base + 5 * k, v, tape[2 * k + 1].turn.usage)
    && NotedAfter(models, v.role, m, j, log[base + 5 * k + 4])
  }

  /** Every attempt before retry `j` of entry `m` is on record. */
  ghost predicate AllOnRecord(models: seq<nat>, v: Visit, tape: seq<Answer>, log: seq<Record>, base: nat, m: nat,
      j: nat)
  {
    forall a: nat, b: nat :: a < |models| && b <= models[a] && (a < m || (a == m && b < j)) ==>
      OnRecord(models, v, tape, log, base, a, b)
  }

  /** A role's visit is at the first attempt of its listed models. */
  predicate FirstAttempt(cfg: Config, st: State, v: Visit, models: seq<nat>) {
    SessionDue(cfg, st, v) && v.model == 0 && v.retry == 0 && v.role in cfg.models && cfg.models[v.role] == models
  }

  /** After the failures of `tape` the visit is at retry `j` of entry `m`. */
  ghost predicate AttemptDue(cfg: Config, st: State, v: Visit, models: seq<nat>, tape: seq<Answer>, m: nat, j: nat,
      next: State)
    requires FailingSessions(tape)
  {
    && SessionDue(cfg, next, v.(model := m, retry := j))
    && next.cp == st.cp && next.forced == st.forced && next.nextVisit == st.nextVisit
    && st.log <= next.log && |next.log| == |st.log| + 5 * (|tape| / 2)
    && NumStarts(next.log) == NumStarts(st.log) + |tape| / 2
    && Spent(next.log) == Spent(st.log) + UsageOf(tape)
    && AllOnRecord(models, v, tape, next.log, |st.log|, m, j)
  }

  /** The visit's next attempt. */
  function Next(models: seq<nat>, v: Visit): Visit
    requires v.model < |models|
  {
    if v.retry < models[v.model] then v.(retry := v.retry + 1) else v.(model := v.model + 1, retry := 0)
  }

  /** One failed attempt, its note, and the next attempt due. */
  ghost predicate Retried(cfg: Config, st: State, v: Visit, models: seq<nat>, usage: nat, next: State)
    requires v.model < |models|
  {
    && SessionDue(cfg, next, Next(models, v))
    && next.cp == st.cp && next.forced == st.forced && next.nextVisit == st.nextVisit
    && st.log <= next.log && |next.log| == |st.log| + 5
    && FailedSession(next.log, |st.log|, v, usage)
    && NotedAfter(models, v.role, v.model, v.retry, next.log[|st.log| + 4])
    && Spent(next.log) == Spent(st.log) + usage && NumStarts(next.log) == NumStarts(st.log) + 1
  }

  /** What follows a failed attempt that is not the last of the list. */
  lemma FailureNotes(cfg: Config, closed: State, v: Visit, models: seq<nat>, note: Record)
    requires WellFormed(cfg.def) && !CapReached(cfg, closed.log, 0)
    requires v.role in cfg.models && cfg.models[v.role] == models
    requires v.model < |models| && v.retry <= models[v.model]
    requires v.retry < models[v.model] || v.model + 1 < |models|
    requires note == if v.retry < models[v.model] then ModelRetry(v.role, v.retry + 1, models[v.model])
                     else ModelFallback(v.role, v.model + 1)
    ensures AfterFailure(cfg, closed, v, Some(ModelFailure)) ==
            closed.(log := closed.log + [note], phase := Spawning(Next(models, v)))
  {
    hide CapReached, Exhaust, WellFormed;
  }

  /** A failed attempt that is not the last of the list is followed by a note and the next one. */
  lemma NextAttempt(cfg: Config, st: State, v: Visit, models: seq<nat>, spawn: Answer, turn: Answer)
    requires SessionDue(cfg, st, v) && Spawns(spawn) && FailsWithModel(turn)
    requires !CapReached(cfg, st.log, turn.turn.usage)
    requires v.role in cfg.models && cfg.models[v.role] == models
    requires v.model < |models| && v.retry <= models[v.model]
    requires v.retry < models[v.model] || v.model + 1 < |models|
    ensures Retried(cfg, st, v, models, turn.turn.usage, Step(cfg, Step(cfg, st, spawn), turn))
  {
    var closed := OneAttempt(cfg, st, v, spawn, turn);
    var note := if v.retry < models[v.model] then ModelRetry(v.role, v.retry + 1, models[v.model])
      else ModelFallback(v.role, v.model + 1);
    SpentOfPair(closed.log, note, note);
    NumStartsOfTwo(note, note);
    NumStartsAppend(closed.log, [note]);
    FailureNotes(cfg, closed, v, models, note);
    hide Step, CapReached, Spent, NumStarts, AfterFailure, WellFormed;
  }

  /** What is on record stays so. */
  lemma StaysOnRecord(models: seq<nat>, v: Visit, tape: seq<Answer>, more: seq<Answer>, log: seq<Record>,
      longer: seq<Record>, base: nat, m: nat, j: nat)
    requires AllOnRecord(models, v, tape, log, base, m, j) && tape <= more && log <= longer
    ensures AllOnRecord(models, v, more, longer, base, m, j)
  {
    forall a: nat, b: nat | a < |models| && b <= models[a] && (a < m || (a == m && b < j))
      ensures OnRecord(models, v, more, longer, base, a, b)
    {
      assert OnRecord(models, v, tape, log, base, a, b);
    }
  }

  lemma OneMore(tape: seq<Answer>, spawn: Answer, turn: Answer)
    requires FailingSessions(tape) && Spawns(spawn) && FailsWithModel(turn)
    ensures FailingSessions(tape + [spawn, turn])
    ensures UsageOf(tape + [spawn, turn]) == UsageOf(tape) + turn.turn.usage
  {
    var more := tape + [spawn, turn];
    assert more[..|more| - 2] == tape;
    forall i | 0 <= i < |more|
      ensures if i % 2 == 0 then Spawns(more[i]) else FailsWithModel(more[i])
    {
      assert i >= |tape| ==> more[i] == [spawn, turn][i - |tape|];
    }
  }

  lemma RecordGrows(models: seq<nat>, v: Visit, tape: seq<Answer>, spawn: Answer, turn: Answer, log: seq<Record>,
      longer: seq<Record>, base: nat, m: nat, j: nat)
    requires m < |models| && j <= models[m] && |tape| == 2 * (Before(models, m) + j) && turn.Reply?
    requires AllOnRecord(models, v, tape, log, base, m, j)
    requires log <= longer && |log| == base + 5 * (|tape| / 2) && |longer| == |log| + 5
    requires FailedSession(longer, |log|, v, turn.turn.usage)
    requires NotedAfter(models, v.role, m, j, longer[|log| + 4])
    ensures AllOnRecord(models, v, tape + [spawn, turn], longer, base, m, j + 1)
    ensures j == models[m] ==> AllOnRecord(models, v, tape + [spawn, turn], longer, base, m + 1, 0)
  {
    StaysOnRecord(models, v, tape, tape + [spawn, turn], log, longer, base, m, j);
    assert OnRecord(models, v, tape + [spawn, turn], longer, base, m, j) by {
      hide FailedSession, NotedAfter, AllOnRecord;
    }
    hide OnRecord, FailedSession, NotedAfter;
  }

  /** The attempts so far and one more. */
  lemma AttemptsGrow(cfg: Config, st: State, v: Visit, models: seq<nat>, tape: seq<Answer>, spawn: Answer, turn: Answer,
      m: nat, j: nat, at: State, next: State)
    requires m < |models| && j <= models[m] && |tape| == 2 * (Before(models, m) + j)
    requires FailingSessions(tape) && FailingSessions(tape + [spawn, turn]) && Spawns(spawn) && FailsWithModel(turn)
    requires AttemptDue(cfg, st, v, models, tape, m, j, at)
    requires Retried(cfg, at, v.(model := m, retry := j), models, turn.turn.usage, next)
    ensures var after := Next(models, v.(model := m, retry := j));
            AttemptDue(cfg, st, v, models, tape + [spawn, turn], after.model, after.retry, next)
  {
    hide FailingSessions, SessionDue, AllOnRecord, Spent, NumStarts, FailedSession, NotedAfter, Before;
    OneMore(tape, spawn, turn);
    SameVisitRecords(next.log, |at.log|, v, m, j, turn.turn.usage);
    RecordGrows(models, v, tape, spawn, turn, at.log, next.log, |st.log|, m, j);
  }

  /** One attempt more. */
  lemma AttemptFollows(cfg: Config, st: State, v: Visit, models: seq<nat>, tape: seq<Answer>, m: nat, j: nat,
      spawn: Answer, turn: Answer)
    requires WellFormed(cfg.def) && FirstAttempt(cfg, st, v, models) && m < |models| && j <= models[m]
    requires FailingSessions(tape) && |tape| == 2 * (Before(models, m) + j)
    requires Spawns(spawn) && FailsWithModel(turn) && FailingSessions(tape + [spawn, turn])
    requires AttemptDue(cfg, st, v, models, tape, m, j, Play(cfg, st, tape))
    requires Affordable(cfg, st.log, tape + [spawn, turn])
    requires j < models[m] || m + 1 < |models|
    ensures var after := Next(models, v.(model := m, retry := j));
            AttemptDue(cfg, st, v, models, tape + [spawn, turn], after.model, after.retry,
                       Play(cfg, st, tape + [spawn, turn]))
  {
    var at := Play(cfg, st, tape);
    AffordsNext(cfg, st.log, at.log, tape, spawn, turn);
    hide FailingSessions, Play, Step, AllOnRecord, Spent, NumStarts, Before, UsageOf, WellFormed, CapReached,
      Affordable, Retried, FailsWithModel, Spawns, SessionDue, Next;
    TwoSteps(cfg, st, tape, spawn, turn);
    NextAttempt(cfg, at, v.(model := m, retry := j), models, spawn, turn);
    AttemptsGrow(cfg, st, v, models, tape, spawn, turn, m, j, at, Step(cfg, Step(cfg, at, spawn), turn));
  }

  lemma AffordsNext(cfg: Config, log: seq<Record>, longer: seq<Record>, tape: seq<Answer>, spawn: Answer, turn: Answer)
    requires FailingSessions(tape) && FailingSessions(tape + [spawn, turn]) && Spawns(spawn) && FailsWithModel(turn)
    requires Spent(longer) == Spent(log) + UsageOf(tape) && Affordable(cfg, log, tape + [spawn, turn])
    ensures !CapReached(cfg, longer, turn.turn.usage)
  {
    OneMore(tape, spawn, turn);
    hide FailingSessions, Spent, UsageOf;
  }

  /** The records name the role and the visit, not the attempt. */
  lemma SameVisitRecords(log: seq<Record>, p: nat, v: Visit, m: nat, j: nat, usage: nat)
    requires FailedSession(log, p, v.(model := m, retry := j), usage)
    ensures FailedSession(log, p, v, usage)
  {}

  lemma TwoSteps(cfg: Config, st: State, tape: seq<Answer>, a: Answer, b: Answer)
    requires WellFormed(cfg.def)
    ensures Play(cfg, st, tape + [a, b]) == Step(cfg, Step(cfg, Play(cfg, st, tape), a), b)
  {
    hide Step;
    assert (tape + [a, b])[..|tape| + 1] == tape + [a];
    assert (tape + [a])[..|tape|] == tape;
  }

  lemma ShorterTape(cfg: Config, log: seq<Record>, tape: seq<Answer>)
    requires FailingSessions(tape) && tape != [] && Affordable(cfg, log, tape)
    ensures var n := |tape| - 2;
            && FailingSessions(tape[..n]) && Affordable(cfg, log, tape[..n])
            && Spawns(tape[n]) && FailsWithModel(tape[n + 1]) && tape == tape[..n] + [tape[n], tape[n + 1]]
  {}

  /** The n-th attempt, with n = Before(models, m) + j, is retry `j` of entry `m`, and those before it are on record. */
  lemma {:induction false} NthAttempt(cfg: Config, st: State, v: Visit, models: seq<nat>, tape: seq<Answer>, m: nat,
      j: nat)
    requires WellFormed(cfg.def) && FirstAttempt(cfg, st, v, models) && m < |models| && j <= models[m]
    requires FailingSessions(tape) && |tape| == 2 * (Before(models, m) + j) && Affordable(cfg, st.log, tape)
    ensures AttemptDue(cfg, st, v, models, tape, m, j, Play(cfg, st, tape))
    decreases |tape|
  {
    if tape == [] {
      assert m == 0 && j == 0;
    } else {
      var n := |tape| - 2;
      var (m', j') := if j > 0 then (m, j - 1) else (m - 1, models[m - 1]);
      ShorterTape(cfg, st.log, tape);
      assert m' >= 0 && |tape[..n]| == 2 * (Before(models, m') + j');
      hide FailingSessions, Affordable, AttemptDue, Play;
      NthAttempt(cfg, st, v, models, tape[..n], m', j');
      AttemptFollows(cfg, st, v, models, tape[..n], m', j', tape[n], tape[n + 1]);
    }
  }

  // ---------------------------------------------------------------- every history

  /** The visit is over at record `p`: the orchestrator has failed, a worker has handed back. */
  predicate HandedBack(cfg: Config, st: State, v: Visit, p: nat, next: State) {
    if v.role == cfg.def.orchestrator then
      next.phase == Stopped(ExitFailed) && |next.log| == p && next.cp == st.cp
    else
      && |next.log| >= p + 2
      && (var r := next.log[p];
          && r.Transition? && r.t.TransitionAccepted? && r.t.event == Handoff(cfg.def.orchestrator, false)
          && r.t.from == At(v.role) && r.t.to == At(cfg.def.orchestrator)
          && r.t.file == Synthesized("handoff:role-unavailable"))
      && if st.forced then next.phase == Stopped(ExitDone)
         else next.phase.Spawning? && next.phase.visit.role == cfg.def.orchestrator && |next.log| == p + 2
  }

  lemma ExhaustHandsBack(cfg: Config, st: State, v: Visit)
    requires WellFormed(cfg.def) && st.cp.current == At(v.role) && st.cp.active.None?
    ensures var next := Exhaust(cfg, st, v);
            && HandedBack(cfg, st, v, |st.log|, next) && st.log <= next.log
            && NumStarts(next.log) == NumStarts(st.log) && Spent(next.log) == Spent(st.log)
  {
    hide NumStarts, Spent;
    if v.role != cfg.def.orchestrator {
      var r := Reduce(st.cp, Handoff(cfg.def.orchestrator, false), cfg.def, At(v.role), UNAVAILABLE_FILE);
      var moved := Advance(st, r.checkpoint, r.record).(nextVisit := st.nextVisit[v.role := v.index + 1]);
      WriteNeither(st.log, Transition(r.record), Snapshot(r.checkpoint));
      var end := Reduce(moved.cp, End(ByRunCostCap), cfg.def, At(cfg.def.orchestrator), CAP_END_FILE);
      WriteNeither(moved.log, Transition(end.record), Snapshot(end.checkpoint));
    }
  }

  lemma WriteNeither(log: seq<Record>, r: Record, s: Record)
    requires r.Transition? && s.Snapshot?
    ensures NumStarts(log + [r, s]) == NumStarts(log) && Spent(log + [r, s]) == Spent(log)
  {
    NumStartsOfTwo(r, s);
    NumStartsAppend(log, [r, s]);
    SpentOfPair(log, r, s);
  }

  /** One failed attempt, after which the visit is over. */
  ghost predicate GaveUp(cfg: Config, st: State, v: Visit, usage: nat, next: State) {
    && HandedBack(cfg, st, v, |st.log| + 4, next)
    && st.log <= next.log && |next.log| >= |st.log| + 4 && FailedSession(next.log, |st.log|, v, usage)
    && Spent(next.log) == Spent(st.log) + usage && NumStarts(next.log) == NumStarts(st.log) + 1
  }

  /** The last attempt of the list: after it nothing is left to try. */
  lemma LastAttempt(cfg: Config, st: State, v: Visit, models: seq<nat>, spawn: Answer, turn: Answer)
    requires SessionDue(cfg, st, v) && Spawns(spawn) && FailsWithModel(turn)
    requires !CapReached(cfg, st.log, turn.turn.usage)
    requires v.role in cfg.models && cfg.models[v.role] == models
    requires v.model + 1 == |models| && v.retry == models[v.model]
    ensures GaveUp(cfg, st, v, turn.turn.usage, Step(cfg, Step(cfg, st, spawn), turn))
  {
    var closed := OneAttempt(cfg, st, v, spawn, turn);
    var after := v.(model := v.model + 1, retry := 0);
    ExhaustHandsBack(cfg, closed, after);
    hide Step, CapReached, Spent, NumStarts, Exhaust;
  }

  lemma DueInRun(cfg: Config, before: seq<Answer>)
    requires Proper(cfg) && Run(cfg, before).phase.Spawning?
    ensures SessionDue(cfg, Run(cfg, before), Run(cfg, before).phase.visit)
  {
    hide Run, BaseOf;
    RunKeeps(cfg, before);
  }

  /** A visit with listed models is about to make its first attempt. */
  predicate VisitBegins(cfg: Config, st: State, models: seq<nat>) {
    && st.phase.Spawning? && st.phase.visit.model == 0 && st.phase.visit.retry == 0
    && st.phase.visit.role in cfg.models && cfg.models[st.phase.visit.role] == models && models != []
  }

  /**
   * In any history, once a visit begins and its sessions fail with model errors
   * below the cap, attempt number Before(models, m) + j is retry `j` of entry `m`.
   */
  lemma AttemptsFollowTheList(cfg: Config, before: seq<Answer>, models: seq<nat>, tape: seq<Answer>, m: nat, j: nat)
    requires Proper(cfg) && VisitBegins(cfg, Run(cfg, before), models) && m < |models| && j <= models[m]
    requires FailingSessions(tape) && |tape| == 2 * (Before(models, m) + j)
    requires Affordable(cfg, Run(cfg, before).log, tape)
    ensures var st, next := Run(cfg, before), Run(cfg, before + tape);
            var v := st.phase.visit;
            && next.phase == Spawning(v.(model := m, retry := j)) && next.cp == st.cp
            && NumStarts(next.log) == NumStarts(st.log) + Before(models, m) + j
            && Spent(next.log) == Spent(st.log) + UsageOf(tape)
            && AllOnRecord(models, v, tape, next.log, |st.log|, m, j)
  {
    hide Run, FailingSessions, Affordable, Spent, NumStarts, AllOnRecord;
    DueInRun(cfg, before);
    PlaySplit(cfg, Begin(cfg), before, tape);
    NthAttempt(cfg, Run(cfg, before), Run(cfg, before).phase.visit, models, tape, m, j);
    RunIsPlay(cfg, before, tape);
  }

  lemma RunIsPlay(cfg: Config, before: seq<Answer>, tape: seq<Answer>)
    requires WellFormed(cfg.def)
    ensures Run(cfg, before + tape) == Play(cfg, Run(cfg, before), tape)
  {
    PlaySplit(cfg, Begin(cfg), before, tape);
  }

  /** What a list leaves behind once every attempt it allows has failed. */
  ghost predicate UsedUp(cfg: Config, st: State, v: Visit, models: seq<nat>, tape: seq<Answer>, next: State)
    requires FailingSessions(tape) && models != []
  {
    var n, last := Before(models, |models|), |models| - 1;
    && HandedBack(cfg, st, v, |st.log| + 5 * n - 1, next) && st.log <= next.log
    && NumStarts(next.log) == NumStarts(st.log) + n && Spent(next.log) == Spent(st.log) + UsageOf(tape)
    && AllOnRecord(models, v, tape, next.log, |st.log|, last, models[last])
    && n > 0 && |tape| == 2 * n && FailedSession(next.log, |st.log| + 5 * (n - 1), v, tape[2 * n - 1].turn.usage)
  }

  /** What the last of n failures adds to those before it. */
  ghost predicate LastAdds(cfg: Config, st: State, v: Visit, models: seq<nat>, tape: seq<Answer>, n: nat, usage: nat,
      log: seq<Record>, next: State)
    requires FailingSessions(tape) && models != []
  {
    && n > 0 && |tape| == 2 * n - 2
    && HandedBack(cfg, st, v, |st.log| + 5 * n - 1, next) && st.log <= log <= next.log
    && NumStarts(next.log) == NumStarts(st.log) + n
    && Spent(next.log) == Spent(st.log) + UsageOf(tape) + usage
    && AllOnRecord(models, v, tape, log, |st.log|, |models| - 1, models[|models| - 1])
    && FailedSession(next.log, |st.log| + 5 * (n - 1), v, usage)
  }

  lemma LastFacts(cfg: Config, st: State, v: Visit, models: seq<nat>, tape: seq<Answer>, n: nat, usage: nat, at: State,
      next: State)
    requires models != [] && FailingSessions(tape) && n > 0 && |tape| == 2 * n - 2
    requires AttemptDue(cfg, st, v, models, tape, |models| - 1, models[|models| - 1], at)
    requires GaveUp(cfg, at, v.(model := |models| - 1, retry := models[|models| - 1]), usage, next)
    ensures LastAdds(cfg, st, v, models, tape, n, usage, at.log, next)
  {
    var last := |models| - 1;
    hide FailingSessions, AllOnRecord, Spent, NumStarts, FailedSession, HandedBack, SessionDue, UsageOf;
    assert |tape| / 2 == n - 1;
    SameVisitRecords(next.log, |at.log|, v, last, models[last], usage);
    SameHandBack(cfg, st, at, v, last, models[last], |at.log| + 4, next);
  }

  /** The failures of `tape` and that of the last attempt. */
  lemma LastFollows(cfg: Config, st: State, v: Visit, models: seq<nat>, tape: seq<Answer>, more: seq<Answer>,
      usage: nat, log: seq<Record>, next: State)
    requires models != [] && FailingSessions(tape) && FailingSessions(more) && tape <= more
    requires UsageOf(more) == UsageOf(tape) + usage
    requires LastAdds(cfg, st, v, models, tape, Before(models, |models|), usage, log, next)
    requires |more| == 2 * Before(models, |models|) && more[|more| - 1].Reply?
    requires more[|more| - 1].turn.usage == usage
    ensures UsedUp(cfg, st, v, models, more, next)
  {
    var last := |models| - 1;
    hide FailingSessions, AllOnRecord, Spent, NumStarts, Before, FailedSession, HandedBack, UsageOf;
    StaysOnRecord(models, v, tape, more, log, next.log, |st.log|, last, models[last]);
  }

  lemma SameHandBack(cfg: Config, st: State, at: State, v: Visit, m: nat, j: nat, p: nat, next: State)
    requires HandedBack(cfg, at, v.(model := m, retry := j), p, next) && at.cp == st.cp && at.forced == st.forced
    ensures HandedBack(cfg, st, v, p, next)
  {}

  /** The last attempt is made with the list's last entry at its last retry. */
  lemma LastIsAttempted(cfg: Config, st: State, v: Visit, models: seq<nat>, tape: seq<Answer>, spawn: Answer,
      turn: Answer, at: State)
    requires models != [] && FirstAttempt(cfg, st, v, models) && FailingSessions(tape)
    requires FailingSessions(tape + [spawn, turn]) && Spawns(spawn) && FailsWithModel(turn)
    requires Affordable(cfg, st.log, tape + [spawn, turn])
    requires AttemptDue(cfg, st, v, models, tape, |models| - 1, models[|models| - 1], at)
    ensures GaveUp(cfg, at, v.(model := |models| - 1, retry := models[|models| - 1]), turn.turn.usage,
                   Step(cfg, Step(cfg, at, spawn), turn))
  {
    AffordsNext(cfg, st.log, at.log, tape, spawn, turn);
    hide FailingSessions, Step, AllOnRecord, Spent, NumStarts, UsageOf, WellFormed, CapReached, Affordable, GaveUp;
    LastAttempt(cfg, at, v.(model := |models| - 1, retry := models[|models| - 1]), models, spawn, turn);
  }

  /**
   * A list is used up after exactly one session per entry and one per retry:
   * then the orchestrator has failed, and a worker has handed control back.
   */
  lemma ListIsUsedUp(cfg: Config, before: seq<Answer>, models: seq<nat>, tape: seq<Answer>)
    requires Proper(cfg) && VisitBegins(cfg, Run(cfg, before), models)
    requires FailingSessions(tape) && |tape| == 2 * Before(models, |models|)
    requires Affordable(cfg, Run(cfg, before).log, tape)
    ensures UsedUp(cfg, Run(cfg, before), Run(cfg, before).phase.visit, models, tape, Run(cfg, before + tape))
  {
    var n, last := |tape| - 2, |models| - 1;
    var st, v := Run(cfg, before), Run(cfg, before).phase.visit;
    assert Before(models, |models|) == Before(models, last) + models[last] + 1;
    var at := Play(cfg, st, tape[..n]);
    hide Run, FailingSessions, AttemptDue, UsedUp, Before, Affordable, GaveUp, Play, Step;
    ShorterTape(cfg, st.log, tape);
    DueInRun(cfg, before);
    NthAttempt(cfg, st, v, models, tape[..n], last, models[last]);
    TwoSteps(cfg, st, tape[..n], tape[n], tape[n + 1]);
    RunIsPlay(cfg, before, tape);
    LastIsAttempted(cfg, st, v, models, tape[..n], tape[n], tape[n + 1], at);
    OneMore(tape[..n], tape[n], tape[n + 1]);
    LastFacts(cfg, st, v, models, tape[..n], Before(models, |models|), tape[n + 1].turn.usage, at, Play(cfg, st, tape));
    LastFollows(cfg, st, v, models, tape[..n], tape, tape[n + 1].turn.usage, at.log, Play(cfg, st, tape));
  }

  // ---------------------------------------------------------------- other failures

  /** A failure for another reason, or at the cap, leaves nothing to try. */
  predicate LeavesNothing(cfg: Config, st: State, t: Turn, cause: Cause) {
    cause != FromHost(ModelFailure) || CapReached(cfg, st.log, t.usage)
  }

  lemma FailStops(cfg: Config, st: State, x: Live, cause: Cause, t: Turn, reason: Option<HostReason>)
    requires Prompted(cfg, st, x) && LeavesNothing(cfg, st, t, cause)
    requires reason.Some? ==> cause == FromHost(reason.value)
    ensures Fail(cfg, st, x, cause, t.usage, reason).phase == Stopped(ExitFailed)
  {
    CloseKept(cfg, st, x, Failed(cause), t.usage);
    CloseFirst(cfg, st, x, Failed(cause), t.usage);
    hide Kept, Close, Spent;
  }

  /** Not the first record of a commit, nor of a close at the cap. */
  lemma DecideStops(cfg: Config, st: State, x: Live, t: Turn, ev: MachineEvent, cause: Cause)
    requires Prompted(cfg, st, x)
    requires First(st, Decide(cfg, st, x, t, ev)) == Some(Closing(st, x, Failed(cause), t.usage))
    ensures Decide(cfg, st, x, t, ev).phase.Stopped?
  {
    DecideIsExact(cfg, st, x, t, ev);
    hide Decide, Kept, Allows;
  }

  lemma EmissionStops(cfg: Config, st: State, x: Live, t: Turn, ev: MachineEvent, cause: Cause)
    requires Prompted(cfg, st, x) && LeavesNothing(cfg, st, t, cause)
    requires First(st, OnEmission(cfg, st, x, t, ev)) == Some(Closing(st, x, Failed(cause), t.usage))
    ensures OnEmission(cfg, st, x, t, ev).phase.Stopped?
  {
    var role := x.visit.role;
    var due, reason := Verdicts.Due(cfg, st, role, t, ev), Against(cfg, st, role, t, ev);
    if role == cfg.def.orchestrator && CapReached(cfg, st.log, t.usage) && t.settled != Some(DelegationFailed) {
      ForceCloseFirst(cfg, st, x, t.usage);
    } else if reason.Some? || t.error == ChildExit {
      var why := if reason.Some? then FromHost(reason.value) else RpcChildExit;
      FailFirst(cfg, due, x, why, t.usage, reason);
      assert OnEmission(cfg, st, x, t, ev) == Fail(cfg, due, x, why, t.usage, reason) by {
        hide Kept, Fail, Decide, ForceClose, CapReached;
      }
      FailStops(cfg, due, x, why, t, reason);
    } else if !t.pendingChildren && !(ev.End? && t.guidance) && !(!cfg.v2 && ev.Handoff? && !t.envelopeOk) {
      assert OnEmission(cfg, st, x, t, ev) == Decide(cfg, due, x, t, ev) by {
        hide Kept, Fail, Decide, ForceClose, CapReached;
      }
      hide Kept, OnEmission, Decide;
      DecideStops(cfg, due, x, t, ev, cause);
    }
  }

  lemma TurnStops(cfg: Config, st: State, x: Live, t: Turn, cause: Cause)
    requires Prompted(cfg, st, x) && LeavesNothing(cfg, st, t, cause)
    requires First(st, OnTurn(cfg, st, x, t)) == Some(Closing(st, x, Failed(cause), t.usage))
    ensures OnTurn(cfg, st, x, t).phase.Stopped?
  {
    var found := ValidateEmission(cfg, x.visit.role, t.captures);
    if Aborted(t) {
      SilentTurn(cfg, st, x, t);
    } else if found.Emitted? {
      hide Kept, OnEmission, LeavesNothing, ValidateEmission;
      EmissionStops(cfg, st, x, t, found.ev, cause);
    } else if !Threw(t) && !Recovers(x, t) {
      var why := if t.after.Some? then FromHost(t.after.value) else if t.error == ChildExit then RpcChildExit
        else found.cause;
      FailFirst(cfg, st, x, why, t.usage, t.after);
      hide Kept, Fail, LeavesNothing;
      FailStops(cfg, st, x, why, t, t.after);
    }
  }

  lemma StoppedStays(cfg: Config, st: State, rest: seq<Answer>)
    requires WellFormed(cfg.def) && st.phase.Stopped? && CrashFree(rest)
    ensures Play(cfg, st, rest) == st
  {
    if rest != [] {
      StoppedStays(cfg, st, rest[..|rest| - 1]);
    }
  }

  /**
   * In any history a prompt that fails its session for another reason than a
   * model error, or at the cap, is the process's last: nothing further starts.
   */
  lemma OtherFailuresStop(cfg: Config, before: seq<Answer>, answer: Answer, cause: Cause, rest: seq<Answer>)
    requires Proper(cfg) && Run(cfg, before).phase.Prompting? && answer.Reply? && CrashFree(rest)
    requires FailsFor(cfg, Run(cfg, before), Run(cfg, before).phase.live, answer.turn, cause)
    requires LeavesNothing(cfg, Run(cfg, before), answer.turn, cause)
    ensures var st, next := Run(cfg, before), Run(cfg, before + [answer]);
            && next.phase.Stopped? && Run(cfg, before + [answer] + rest) == next
            && st.log <= next.log && forall i :: |st.log| <= i < |next.log| ==> !next.log[i].Started?
  {
    hide Run, Kept, OnTurn, FailsFor, LeavesNothing;
    var st := Run(cfg, before);
    PromptVerdict(cfg, before, answer);
    PromptedHolds(cfg, before);
    RunMore(cfg, before, answer);
    TurnStops(cfg, st, st.phase.live, answer.turn, cause);
    TurnTurned(cfg, st, st.phase.live, answer.turn);
    RunIsPlay(cfg, before + [answer], rest);
    StoppedStays(cfg, Run(cfg, before + [answer]), rest);
  }
}
