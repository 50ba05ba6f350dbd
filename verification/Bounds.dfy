/**
 * How many sessions a process can start, whatever the host answers.
 *
 * With at most `k` model entries and `r` retries per entry, a visit starts at
 * most k * (r + 1) sessions, and the visits left are twice the dispatches left.
 */
module Bounds {
  import opened Wrappers
  import opened Machine
  import opened Protocol
  import opened Invariants

  function NumStarts(log: seq<Record>): nat {
    if log == [] then 0
    else NumStarts(log[..|log| - 1]) + if log[|log| - 1].Started? then 1 else 0
  }

  lemma NumStartsAppend(log: seq<Record>, more: seq<Record>)
    ensures NumStarts(log + more) == NumStarts(log) + NumStarts(more)
  {
    if more == [] {
      assert log + more == log;
    } else {
      var n := |more| - 1;
      assert (log + more)[..|log + more| - 1] == log + more[..n];
      NumStartsAppend(log, more[..n]);
    }
  }

  lemma NumStartsOfTwo(r: Record, s: Record)
    ensures NumStarts([r]) == if r.Started? then 1 else 0
    ensures NumStarts([r, s]) == (if r.Started? then 1 else 0) + if s.Started? then 1 else 0
  {
    assert [r][..0] == [];
    assert [r, s][..1] == [r];
  }

  // ---------------------------------------------------------------- dispatches left

  function Left(workers: seq<Role>, caps: map<Role, nat>, visits: map<Role, nat>): nat {
    if workers == [] then 0
    else
      var w := workers[0];
      Left(workers[1..], caps, visits) +
      if Count(visits, w) < Count(caps, w) then Count(caps, w) - Count(visits, w) else 0
  }

  lemma {:induction false} LeftIgnoresOthers(workers: seq<Role>, caps: map<Role, nat>, visits: map<Role, nat>,
      w: Role, n: nat)
    requires w !in workers
    ensures Left(workers, caps, visits[w := n]) == Left(workers, caps, visits)
    decreases |workers|
  {
    if workers != [] {
      LeftIgnoresOthers(workers[1..], caps, visits, w, n);
    }
  }

  lemma {:induction false} LeftDrops(workers: seq<Role>, caps: map<Role, nat>, visits: map<Role, nat>, w: Role)
    requires Distinct(workers) && w in workers && Count(visits, w) < Count(caps, w)
    ensures Left(workers, caps, visits[w := Count(visits, w) + 1]) == Left(workers, caps, visits) - 1
    decreases |workers|
  {
    if w == workers[0] {
      assert w !in workers[1..];
      LeftIgnoresOthers(workers[1..], caps, visits, w, Count(visits, w) + 1);
    } else {
      LeftDrops(workers[1..], caps, visits, w);
    }
  }

  /** The sum of all visit caps. */
  function TotalVisits(def: Definition): nat {
    Left(def.workers, def.maxVisits, Initial(def).visits)
  }

  /** Visits that can still begin, counting the current one. */
  function VisitsLeft(def: Definition, cp: Checkpoint): nat {
    var left := Left(def.workers, def.maxVisits, cp.visits);
    if cp.current == Done then 0
    else if cp.current == At(def.orchestrator) then 2 * left + 1
    else 2 * left + 2
  }

  lemma MoveUsesAVisit(def: Definition, cp: Checkpoint, ev: MachineEvent, file: File, next: Checkpoint)
    requires WellFormed(def) && Moves(def, cp, ev, file, next)
    requires forall w :: w in def.workers && Count(def.maxVisits, w) > 0 ==> PlainName(w)
    ensures VisitsLeft(def, next) < VisitsLeft(def, cp)
  {
    if ev.Handoff? && cp.current == At(def.orchestrator) {
      LeftDrops(def.workers, def.maxVisits, cp.visits, ev.target);
    }
  }

  // ---------------------------------------------------------------- the measure

  ghost predicate Reachable(cfg: Config, role: Role) {
    role == cfg.def.orchestrator || (role in cfg.def.workers && Count(cfg.def.maxVisits, role) > 0)
  }

  /** Every worker that can be dispatched has a name its visits can be counted under. */
  ghost predicate CountsDispatches(cfg: Config) {
    forall w :: w in cfg.def.workers && Count(cfg.def.maxVisits, w) > 0 ==> PlainName(w)
  }

  /** Every dispatch is counted, and every role a run can reach has between 1 and `k` models of at most `r` retries. */
  ghost predicate Limits(cfg: Config, k: nat, r: nat) {
    CountsDispatches(cfg) &&
    forall role :: Reachable(cfg, role) ==>
      && 0 < |Models(cfg, role)| <= k
      && forall i :: 0 <= i < |Models(cfg, role)| ==> Models(cfg, role)[i] <= r
  }

  /** Sessions the visit can still start, counting the one about to. */
  function InVisitLeft(k: nat, r: nat, v: Visit): int {
    (k - v.model) * (r + 1) - v.retry
  }

  function Measure(cfg: Config, k: nat, r: nat, st: State): int {
    match st.phase
    case Spawning(v) => InVisitLeft(k, r, v) + (VisitsLeft(cfg.def, st.cp) - 1) * (k * (r + 1))
    case Prompting(x) => InVisitLeft(k, r, x.visit) - 1 + (VisitsLeft(cfg.def, st.cp) - 1) * (k * (r + 1))
    case Stopped(_) => 0
  }

  ghost predicate RetriesFit(cfg: Config, v: Visit) {
    v.model < |Models(cfg, v.role)| && v.retry <= Retries(cfg, v)
  }

  ghost predicate Fits(cfg: Config, st: State) {
    match st.phase
    case Spawning(v) => RetriesFit(cfg, v)
    case Prompting(x) => RetriesFit(cfg, x.visit)
    case Stopped(_) => true
  }

  /** The promise each piece of a step keeps: starts plus measure stay within `budget`. */
  ghost predicate Within(cfg: Config, k: nat, r: nat, st: State, budget: int) {
    Fits(cfg, st) && NumStarts(st.log) + Measure(cfg, k, r, st) <= budget
  }

  lemma VisitIsPositive(cfg: Config, k: nat, r: nat, v: Visit)
    requires Limits(cfg, k, r) && Reachable(cfg, v.role) && RetriesFit(cfg, v)
    ensures InVisitLeft(k, r, v) >= 1
  {
    assert (k - v.model) * (r + 1) >= r + 1 by {
      assert k - v.model >= 1;
      MulGrows(k - v.model, r + 1);
    }
  }

  lemma MulGrows(a: nat, b: nat)
    requires a >= 1
    ensures a * b >= b
  {
  }

  lemma VisitsScale(a: nat, b: nat, p: nat)
    requires a <= b
    ensures a * p <= b * p
  {
  }

  lemma CurrentReachable(cfg: Config, st: State, v: Visit, clean: bool)
    requires Base(cfg, st, clean) && st.cp.current == At(v.role)
    ensures Reachable(cfg, v.role)
    ensures VisitsLeft(cfg.def, st.cp) >= 1
  {
  }

  /** Between visits a whole visit's worth is kept for each visit left. */
  lemma HeadWithin(cfg: Config, k: nat, r: nat, st: State, budget: int)
    requires Limits(cfg, k, r) && ReadyForHead(cfg, st, false)
    requires NumStarts(st.log) + VisitsLeft(cfg.def, st.cp) * (k * (r + 1)) <= budget
    ensures Within(cfg, k, r, EnterHead(cfg, st), budget)
  {
    hide BaseOf, Reachable, VisitsLeft, Reduce;
    BaseFacts(cfg, st, false);
    var p := k * (r + 1);
    var visits := VisitsLeft(cfg.def, st.cp);
    VisitsScale(0, visits, p);
    if st.forced {
      ForcedEndStarts(cfg, st);
    } else if st.cp.current.At? {
      var role := st.cp.current.role;
      var v := Visit(role, VisitIndex(st, role), 0, 0);
      CurrentReachable(cfg, st, v, false);
      LimitsAt(cfg, k, r, role);
      assert (visits - 1) * p + p == visits * p;
    }
  }

  lemma LimitsAt(cfg: Config, k: nat, r: nat, role: Role)
    requires Limits(cfg, k, r) && Reachable(cfg, role)
    ensures 0 < |Models(cfg, role)| <= k
  {}

  lemma AdvanceWithin(cfg: Config, k: nat, r: nat, st: State, ev: MachineEvent, who: Place, file: File)
    requires Base(cfg, st, false) && Reduce(st.cp, ev, cfg.def, who, file).Accepted? && CountsDispatches(cfg)
    ensures var red := Reduce(st.cp, ev, cfg.def, who, file);
            var next := Advance(st, red.checkpoint, red.record);
            && NumStarts(next.log) == NumStarts(st.log)
            && VisitsLeft(cfg.def, next.cp) * (k * (r + 1)) <= (VisitsLeft(cfg.def, st.cp) - 1) * (k * (r + 1))
  {
    hide BaseOf, Reduce, VisitsLeft, Moves;
    BaseFacts(cfg, st, false);
    var red := Reduce(st.cp, ev, cfg.def, who, file);
    ReduceMoves(cfg.def, st.cp, ev, who, file);
    MoveUsesAVisit(cfg.def, st.cp, ev, file, red.checkpoint);
    VisitsScale(VisitsLeft(cfg.def, red.checkpoint), VisitsLeft(cfg.def, st.cp) - 1, k * (r + 1));
    NumStartsOfTwo(Transition(red.record), Snapshot(red.checkpoint));
    NumStartsAppend(st.log, [Transition(red.record), Snapshot(red.checkpoint)]);
  }

  lemma CloseStarts(st: State, x: Live, ending: Ending, cost: nat)
    requires Close(st, x, ending, cost).Some?
    ensures NumStarts(Close(st, x, ending, cost).value.log) == NumStarts(st.log)
  {
    var rest := Close(st, x, ending, cost).value.log[|st.log|..];
    NumStartsOfTwo(rest[0], rest[1]);
    NumStartsAppend(st.log, rest);
    assert st.log + rest == Close(st, x, ending, cost).value.log;
  }

  /** Starting a session trades one unit of measure for one start. */
  lemma SpawnWithin(cfg: Config, k: nat, r: nat, st: State, v: Visit, spawned: bool, shared: Option<string>,
      budget: int)
    requires Limits(cfg, k, r) && ReadyToSpawn(cfg, st, v, false) && st.phase == Spawning(v)
    requires Within(cfg, k, r, st, budget)
    ensures Within(cfg, k, r, OnSpawn(cfg, st, v, spawned, shared), budget)
  {
    hide BaseOf, Limits, Reachable, SessionStarted;
    BaseFacts(cfg, st, false);
    CurrentReachable(cfg, st, v, false);
    VisitIsPositive(cfg, k, r, v);
    VisitsScale(0, VisitsLeft(cfg.def, st.cp) - 1, k * (r + 1));
    SpawnStarts(cfg, st, v, spawned, shared);
  }

  /** Spawning starts at most one session, and keeps what is left to visit. */
  lemma SpawnStarts(cfg: Config, st: State, v: Visit, spawned: bool, shared: Option<string>)
    requires WellFormed(cfg.def)
    ensures var next := OnSpawn(cfg, st, v, spawned, shared);
            && next.cp.visits == st.cp.visits && next.cp.current == st.cp.current
            && (next.phase.Prompting? ==> next.phase.live.visit == v && NumStarts(next.log) == NumStarts(st.log) + 1)
            && (next.phase.Prompting? || next.phase.Stopped?)
            && (next.phase.Stopped? ==> NumStarts(next.log) == NumStarts(st.log))
  {
    hide NumStarts;
    var next := OnSpawn(cfg, st, v, spawned, shared);
    if |next.log| > |st.log| {
      var rest := next.log[|st.log|..];
      NumStartsOfTwo(rest[0], rest[|rest| - 1]);
      NumStartsAppend(st.log, rest);
      assert next.log == st.log + rest;
    }
  }

  /** A retry or the next model costs at least one unit of what the visit has left. */
  lemma AttemptsShrink(k: nat, r: nat, v: Visit)
    requires v.retry <= r
    ensures InVisitLeft(k, r, v.(retry := v.retry + 1)) == InVisitLeft(k, r, v) - 1
    ensures InVisitLeft(k, r, v.(model := v.model + 1, retry := 0)) <= InVisitLeft(k, r, v) - 1
  {
    assert (k - (v.model + 1)) * (r + 1) + (r + 1) == (k - v.model) * (r + 1);
  }

  lemma NoteStarts(st: State, note: Record)
    requires note.ModelRetry? || note.ModelFallback?
    ensures NumStarts(Write(st, [note]).log) == NumStarts(st.log)
  {
    NumStartsOfTwo(note, note);
    NumStartsAppend(st.log, [note]);
  }

  lemma RetryAllowance(cfg: Config, k: nat, r: nat, v: Visit)
    requires Limits(cfg, k, r) && Reachable(cfg, v.role) && RetriesFit(cfg, v)
    ensures v.retry <= r && Retries(cfg, v) <= r
    ensures v.model < k
  {
  }

  /** After a failed session: a retry, the next model, or the end of the visit. */
  lemma FailureWithin(cfg: Config, k: nat, r: nat, st: State, x: Live, reason: Option<HostReason>, budget: int)
    requires Limits(cfg, k, r) && Idle(cfg, st, false) && InVisit(cfg, st, x.visit) && RetriesFit(cfg, x.visit)
    requires NumStarts(st.log) + InVisitLeft(k, r, x.visit) - 1 + (VisitsLeft(cfg.def, st.cp) - 1) * (k * (r + 1))
             <= budget
    ensures Within(cfg, k, r, AfterFailure(cfg, st, x.visit, reason), budget)
  {
    hide BaseOf, EnterSpawn, Limits, Reachable, VisitsLeft, CapReached, Within, InVisitLeft, NumStarts;
    BaseFacts(cfg, st, false);
    var v := x.visit;
    CurrentReachable(cfg, st, v, false);
    VisitIsPositive(cfg, k, r, v);
    RetryAllowance(cfg, k, r, v);
    AttemptsShrink(k, r, v);
    var rest := (VisitsLeft(cfg.def, st.cp) - 1) * (k * (r + 1));
    VisitsScale(0, VisitsLeft(cfg.def, st.cp) - 1, k * (r + 1));
    if reason != Some(ModelFailure) || CapReached(cfg, st.log, 0) {
      StoppedWithin(cfg, k, r, Halt(st, ExitFailed), budget);
    } else if v.retry < Retries(cfg, v) {
      var note := ModelRetry(v.role, v.retry + 1, Retries(cfg, v));
      NoteStarts(st, note);
      NextAttemptWithin(cfg, k, r, Write(st, [note]), v.(retry := v.retry + 1), budget);
    } else {
      var next := v.(model := v.model + 1, retry := 0);
      if next.model < |Models(cfg, v.role)| {
        var note := ModelFallback(v.role, v.model + 1);
        NoteStarts(st, note);
        NextAttemptWithin(cfg, k, r, Write(st, [note]), next, budget);
      } else {
        ExhaustWithin(cfg, k, r, st, next, budget);
      }
    }
  }

  lemma NextAttemptWithin(cfg: Config, k: nat, r: nat, st: State, v: Visit, budget: int)
    requires WellFormed(cfg.def) && RetriesFit(cfg, v)
    requires NumStarts(st.log) + InVisitLeft(k, r, v) + (VisitsLeft(cfg.def, st.cp) - 1) * (k * (r + 1)) <= budget
    ensures Within(cfg, k, r, EnterSpawn(cfg, st, v), budget)
  {
  }

  lemma ExhaustWithin(cfg: Config, k: nat, r: nat, st: State, v: Visit, budget: int)
    requires Limits(cfg, k, r) && Idle(cfg, st, false) && InVisit(cfg, st, v)
    requires !CapReached(cfg, st.log, 0)
    requires OutOfModels(cfg, v) && VisitsLeft(cfg.def, st.cp) >= 1
    requires NumStarts(st.log) + (VisitsLeft(cfg.def, st.cp) - 1) * (k * (r + 1)) <= budget
    ensures Within(cfg, k, r, EnterSpawn(cfg, st, v), budget)
  {
    hide BaseOf, EnterHead, Reduce, Moves, VisitsLeft, Within;
    BaseFacts(cfg, st, false);
    if v.role == cfg.def.orchestrator {
      VisitsScale(0, VisitsLeft(cfg.def, st.cp) - 1, k * (r + 1));
      StoppedWithin(cfg, k, r, Halt(st, ExitFailed), budget);
    } else {
      var ev := Handoff(cfg.def.orchestrator, false);
      HandBackAccepted(cfg.def, st.cp, v.role);
      AdvanceKeeps(cfg, st, ev, At(v.role), UNAVAILABLE_FILE, false);
      AdvanceWithin(cfg, k, r, st, ev, At(v.role), UNAVAILABLE_FILE);
      var red := Reduce(st.cp, ev, cfg.def, At(v.role), UNAVAILABLE_FILE);
      var next := Advance(st, red.checkpoint, red.record);
      SpentOfPair(st.log, Transition(red.record), Snapshot(red.checkpoint));
      HandBackAtHub(cfg.def, st.cp, ev, UNAVAILABLE_FILE, next.cp);
      HeadWithin(cfg, k, r, next.(nextVisit := next.nextVisit[v.role := v.index + 1]), budget);
    }
  }

  lemma StoppedWithin(cfg: Config, k: nat, r: nat, st: State, budget: int)
    requires st.phase.Stopped? && NumStarts(st.log) <= budget
    ensures Within(cfg, k, r, st, budget)
  {
  }

  lemma HandBackAccepted(def: Definition, cp: Checkpoint, role: Role)
    requires WellFormed(def) && cp.current == At(role) && role != def.orchestrator
    ensures Reduce(cp, Handoff(def.orchestrator, false), def, At(role), UNAVAILABLE_FILE).Accepted?
  {
  }

  lemma HandBackAtHub(def: Definition, cp: Checkpoint, ev: MachineEvent, file: File, next: Checkpoint)
    requires Moves(def, cp, ev, file, next) && ev.Handoff?
    ensures next.current == At(ev.target) && next.active == cp.active
  {
  }

  lemma CommitWithin(cfg: Config, k: nat, r: nat, st: State, x: Live, cost: nat, ev: MachineEvent, budget: int)
    requires Limits(cfg, k, r) && LiveFor(cfg, st, x, false) && InVisit(cfg, st, x.visit) && RetriesFit(cfg, x.visit)
    requires Reduce(st.cp, ev, cfg.def, At(x.visit.role), x.session.SessionFile()).Accepted?
    requires PositiveCap(cfg) && CapReached(cfg, st.log, cost) ==> st.forced && x.visit.role != cfg.def.orchestrator
    requires NumStarts(st.log) + (VisitsLeft(cfg.def, st.cp) - 1) * (k * (r + 1)) <= budget
    requires VisitsLeft(cfg.def, st.cp) >= 1
    ensures var red := Reduce(st.cp, ev, cfg.def, At(x.visit.role), x.session.SessionFile());
            Within(cfg, k, r, Commit(cfg, st, x, cost, red.checkpoint, red.record), budget)
  {
    hide BaseOf, EnterHead, Reduce, Close, VisitsLeft, Within;
    BaseFacts(cfg, st, false);
    var file := x.session.SessionFile();
    var red := Reduce(st.cp, ev, cfg.def, At(x.visit.role), file);
    AdvanceKeeps(cfg, st, ev, At(x.visit.role), file, false);
    AdvanceWithin(cfg, k, r, st, ev, At(x.visit.role), file);
    var moved := Advance(st, red.checkpoint, red.record);
    SpentOfPair(st.log, Transition(red.record), Snapshot(red.checkpoint));
    CloseKeeps(cfg, moved, x, Ended, cost, false);
    CloseStarts(moved, x, Ended, cost);
    var closed := Close(moved, x, Ended, cost).value;
    SameVisitsLeft(cfg.def, moved.cp, closed.cp);
    if closed.cp.current == Done {
      VisitsScale(0, VisitsLeft(cfg.def, st.cp) - 1, k * (r + 1));
      StoppedWithin(cfg, k, r, Halt(closed, ExitDone), budget);
    } else {
      HeadWithin(cfg, k, r, closed.(nextVisit := closed.nextVisit[x.visit.role := x.visit.index + 1]), budget);
    }
  }

  lemma SameVisitsLeft(def: Definition, a: Checkpoint, b: Checkpoint)
    requires a.current == b.current && a.visits == b.visits
    ensures VisitsLeft(def, a) == VisitsLeft(def, b)
  {
  }

  /** The session's failure, priced. */
  lemma FailWithin(cfg: Config, k: nat, r: nat, st: State, x: Live, cause: Cause, cost: nat,
      reason: Option<HostReason>, budget: int)
    requires Limits(cfg, k, r) && LiveFor(cfg, st, x, false) && InVisit(cfg, st, x.visit) && st.phase == Prompting(x)
    requires Within(cfg, k, r, st, budget)
    ensures Within(cfg, k, r, Fail(cfg, st, x, cause, cost, reason), budget)
  {
    hide BaseOf, LiveOf, Close, AfterFailure, VisitsLeft;
    CloseKeeps(cfg, st, x, Failed(cause), cost, false);
    CloseStarts(st, x, Failed(cause), cost);
    var closed := Close(st, x, Failed(cause), cost).value;
    SameVisitsLeft(cfg.def, st.cp, closed.cp);
    FailureWithin(cfg, k, r, closed, x, reason, budget);
  }

  lemma StopWithin(cfg: Config, k: nat, r: nat, st: State, x: Live, cause: Cause, cost: nat, exit: Exit, budget: int)
    requires LiveFor(cfg, st, x, false) && NumStarts(st.log) <= budget
    ensures Within(cfg, k, r, FailAndStop(st, x, cause, cost, exit), budget)
  {
    hide BaseOf, LiveOf, Close;
    CloseKeeps(cfg, st, x, Failed(cause), cost, false);
    CloseStarts(st, x, Failed(cause), cost);
  }

  lemma DecideWithin(cfg: Config, k: nat, r: nat, st: State, x: Live, t: Turn, ev: MachineEvent, budget: int)
    requires Limits(cfg, k, r) && LiveFor(cfg, st, x, false) && InVisit(cfg, st, x.visit) && st.phase == Prompting(x)
    requires PositiveCap(cfg) && CapReached(cfg, st.log, t.usage) &&
             !(ev.End? && x.visit.role != cfg.def.orchestrator) ==>
               st.forced && x.visit.role != cfg.def.orchestrator
    requires Within(cfg, k, r, st, budget)
    ensures Within(cfg, k, r, Decide(cfg, st, x, t, ev), budget)
  {
    hide BaseOf, LiveOf, Commit, FailAndStop, VisitsLeft, Reduce, Reachable;
    BaseFacts(cfg, st, false);
    CurrentReachable(cfg, st, x.visit, false);
    VisitIsPositive(cfg, k, r, x.visit);
    VisitsScale(0, VisitsLeft(cfg.def, st.cp) - 1, k * (r + 1));
    var red := Reduce(st.cp, ev, cfg.def, At(x.visit.role), x.session.SessionFile());
    ReduceMoves(cfg.def, st.cp, ev, At(x.visit.role), x.session.SessionFile());
    if red.Rejected? {
      NumStartsOfTwo(Transition(red.record), Transition(red.record));
      NumStartsAppend(st.log, [Transition(red.record)]);
    } else {
      CommitWithin(cfg, k, r, st, x, t.usage, ev, budget);
      StopWithin(cfg, k, r, st, x, GuardCleanupUnconfirmed, t.usage, ExitFailed, budget);
      StopWithin(cfg, k, r, st, x, FromHost(UserAborted), t.usage, ExitAborted, budget);
      StopWithin(cfg, k, r, st, x, GuardExhausted, t.usage, ExitFailed, budget);
    }
  }

  lemma EmissionWithin(cfg: Config, k: nat, r: nat, st: State, x: Live, t: Turn, ev: MachineEvent, budget: int)
    requires Limits(cfg, k, r) && LiveFor(cfg, st, x, false) && InVisit(cfg, st, x.visit) && st.phase == Prompting(x)
    requires Within(cfg, k, r, st, budget)
    ensures Within(cfg, k, r, OnEmission(cfg, st, x, t, ev), budget)
  {
    hide BaseOf, LiveOf, Fail, Decide, VisitsLeft, Close, InVisitLeft;
    CurrentReachable(cfg, st, x.visit, false);
    VisitIsPositive(cfg, k, r, x.visit);
    VisitsScale(0, VisitsLeft(cfg.def, st.cp) - 1, k * (r + 1));
    var breached := CapReached(cfg, st.log, t.usage);
    var hub := x.visit.role == cfg.def.orchestrator;
    var settles := breached && (hub || ev.Handoff?);
    if breached && hub && t.settled != Some(DelegationFailed) {
      CloseKeeps(cfg, st, x, Ended, t.usage, false);
      CloseStarts(st, x, Ended, t.usage);
      var closed := Close(st, x, Ended, t.usage).value;
      BaseFacts(cfg, closed, false);
      ForcedEndStarts(cfg, closed);
      ForceEndKeeps(cfg, closed, false);
    } else {
      var st1 := if settles && !hub && t.settled != Some(DelegationFailed) then st.(forced := true) else st;
      var reason := if settles then t.settled else t.after;
      assert Within(cfg, k, r, st1, budget);
      if reason.Some? {
        FailWithin(cfg, k, r, st1, x, FromHost(reason.value), t.usage, reason, budget);
      } else if t.error == ChildExit {
        FailWithin(cfg, k, r, st1, x, RpcChildExit, t.usage, None, budget);
      } else if t.pendingChildren || (ev.End? && t.guidance) || (!cfg.v2 && ev.Handoff? && !t.envelopeOk) {
      } else {
        DecideWithin(cfg, k, r, st1, x, t, ev, budget);
      }
    }
  }

  /** The synthesized end starts nothing. */
  lemma ForcedEndStarts(cfg: Config, st: State)
    requires WellFormed(cfg.def)
    ensures NumStarts(ForceEnd(cfg, st).log) == NumStarts(st.log) && ForceEnd(cfg, st).phase.Stopped?
  {
    hide Reduce, NumStarts;
    var r := Reduce(st.cp, End(ByRunCostCap), cfg.def, At(cfg.def.orchestrator), CAP_END_FILE);
    if !r.Broken? {
      NumStartsOfTwo(Transition(r.record), Snapshot(r.checkpoint));
      NumStartsAppend(st.log, [Transition(r.record), Snapshot(r.checkpoint)]);
    }
  }

  lemma TurnWithin(cfg: Config, k: nat, r: nat, st: State, x: Live, t: Turn, budget: int)
    requires Limits(cfg, k, r) && LiveFor(cfg, st, x, false) && InVisit(cfg, st, x.visit) && st.phase == Prompting(x)
    requires Within(cfg, k, r, st, budget)
    ensures Within(cfg, k, r, OnTurn(cfg, st, x, t), budget)
  {
    hide BaseOf, LiveOf, Fail, FailAndStop, OnEmission, VisitsLeft;
    CurrentReachable(cfg, st, x.visit, false);
    VisitIsPositive(cfg, k, r, x.visit);
    VisitsScale(0, VisitsLeft(cfg.def, st.cp) - 1, k * (r + 1));
    if t.before == Some(UserAborted) || t.after == Some(UserAborted) {
      StopWithin(cfg, k, r, st, x, FromHost(UserAborted), t.usage, ExitAborted, budget);
    } else if t.error == OtherError && t.after.None? {
    } else {
      match ValidateEmission(cfg, x.visit.role, t.captures)
      case Emitted(ev) => EmissionWithin(cfg, k, r, st, x, t, ev, budget);
      case Breach(cause) =>
        if t.after.None? && t.error != ChildExit && cause == NoEmission && x.recoveries < MAX_RECOVERY_PROMPTS {
        } else if t.after.Some? {
          FailWithin(cfg, k, r, st, x, FromHost(t.after.value), t.usage, t.after, budget);
        } else {
          FailWithin(cfg, k, r, st, x, if t.error == ChildExit then RpcChildExit else cause, t.usage, None, budget);
        }
    }
  }

  /** The tape is at the start of a process: nothing was answered yet, or the last event was a crash. */
  predicate ProcessStarts(tape: seq<Answer>) {
    tape == [] || tape[|tape| - 1].Crash?
  }

  /** What the process that starts after `tape` may spend, the sessions before it included. */
  function Budget(cfg: Config, k: nat, r: nat, tape: seq<Answer>): int
    requires WellFormed(cfg.def)
  {
    var st := Run(cfg, tape);
    NumStarts(st.log) + VisitsLeft(cfg.def, st.cp) * (k * (r + 1))
  }

  /** A process begins with a fresh visit, or not at all. */
  lemma ProcessWithin(cfg: Config, k: nat, r: nat, tape: seq<Answer>)
    requires Proper(cfg) && Limits(cfg, k, r) && ProcessStarts(tape)
    ensures Within(cfg, k, r, Run(cfg, tape), Budget(cfg, k, r, tape))
  {
    hide Run, VisitsLeft, Limits, ProcessStarts;
    RunKeeps(cfg, tape);
    FreshVisit(cfg, tape);
    hide BaseOf;
    FreshWithin(cfg, k, r, Run(cfg, tape));
  }

  lemma FreshWithin(cfg: Config, k: nat, r: nat, st: State)
    requires Limits(cfg, k, r) && Base(cfg, st, false)
    requires st.phase.Stopped? ||
             (st.phase.Spawning? && st.phase.visit.model == 0 && st.phase.visit.retry == 0 &&
              st.cp.current == At(st.phase.visit.role))
    ensures Within(cfg, k, r, st, NumStarts(st.log) + VisitsLeft(cfg.def, st.cp) * (k * (r + 1)))
  {
    hide BaseOf, Reachable, VisitsLeft;
    var p, visits := k * (r + 1), VisitsLeft(cfg.def, st.cp);
    VisitsScale(0, visits, p);
    if st.phase.Spawning? {
      var v := st.phase.visit;
      CurrentReachable(cfg, st, v, false);
      LimitsAt(cfg, k, r, v.role);
      assert (visits - 1) * p + p == visits * p;
    }
  }

  lemma FreshVisit(cfg: Config, tape: seq<Answer>)
    requires Proper(cfg) && ProcessStarts(tape)
    ensures var phase := Run(cfg, tape).phase;
            phase.Stopped? || (phase.Spawning? && phase.visit.model == 0 && phase.visit.retry == 0)
  {
    hide Sound, WellFormed;
  }

  lemma {:induction false} RunWithin(cfg: Config, k: nat, r: nat, tape: seq<Answer>, rest: seq<Answer>)
    requires Proper(cfg) && Limits(cfg, k, r) && ProcessStarts(tape) && CrashFree(rest)
    ensures Within(cfg, k, r, Run(cfg, tape + rest), Budget(cfg, k, r, tape))
    decreases |rest|
  {
    if rest == [] {
      assert tape + rest == tape;
      ProcessWithin(cfg, k, r, tape);
    } else {
      var n := |rest| - 1;
      var before := tape + rest[..n];
      RunWithin(cfg, k, r, tape, rest[..n]);
      RunKeeps(cfg, before);
      assert (tape + rest)[..|before|] == before;
      var st, budget := Run(cfg, before), Budget(cfg, k, r, tape);
      assert Run(cfg, tape + rest) == Step(cfg, st, rest[n]);
      hide Run, Budget, Limits, Within, ProcessStarts;
      match st.phase
      case Spawning(v) => SpawnWithin(cfg, k, r, st, v, rest[n].spawned, rest[n].shared, budget);
      case Prompting(x) => TurnWithin(cfg, k, r, st, x, rest[n].turn, budget);
      case Stopped(_) =>
    }
  }

  /**
   * Whatever history went before, a process starts at most k * (r + 1)
   * sessions for each visit its first checkpoint has left, whatever the host
   * answers and however long it goes on.
   */
  lemma ProcessBound(cfg: Config, k: nat, r: nat, tape: seq<Answer>, rest: seq<Answer>)
    requires Proper(cfg) && Limits(cfg, k, r) && ProcessStarts(tape) && CrashFree(rest)
    ensures NumStarts(Run(cfg, tape + rest).log) <=
            NumStarts(Run(cfg, tape).log) + VisitsLeft(cfg.def, Run(cfg, tape).cp) * (k * (r + 1))
  {
    hide BaseOf, LiveOf, Limits, Reachable, Run, VisitsLeft, OutOfModels, CapReached;
    RunWithin(cfg, k, r, tape, rest);
    RunKeeps(cfg, tape + rest);
    var st := Run(cfg, tape + rest);
    match st.phase
    case Spawning(v) =>
      CurrentReachable(cfg, st, v, false);
      VisitIsPositive(cfg, k, r, v);
      VisitsScale(0, VisitsLeft(cfg.def, st.cp) - 1, k * (r + 1));
    case Prompting(x) =>
      CurrentReachable(cfg, st, x.visit, false);
      VisitIsPositive(cfg, k, r, x.visit);
      VisitsScale(0, VisitsLeft(cfg.def, st.cp) - 1, k * (r + 1));
    case Stopped(_) =>
  }

  /** A fresh crash-free run starts at most (2 * total visits + 1) * k * (r + 1) sessions. */
  lemma SessionBound(cfg: Config, k: nat, r: nat, tape: seq<Answer>)
    requires Proper(cfg) && Limits(cfg, k, r) && CrashFree(tape)
    ensures NumStarts(Run(cfg, tape).log) <= (2 * TotalVisits(cfg.def) + 1) * (k * (r + 1))
  {
    assert [] + tape == tape;
    ProcessBound(cfg, k, r, [], tape);
    assert NumStarts(Run(cfg, []).log) == 0 && Run(cfg, []).cp == Initial(cfg.def);
  }
}
