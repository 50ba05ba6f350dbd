/**
 * When the session bound holds. A role without a model list runs on the system
 * default, and the host then never reports exhaustion: model errors are retried
 * for ever. A worker whose name cannot be counted is dispatched for ever. The
 * bound holds exactly when there is neither.
 */
module Exhaustion {
  import opened Wrappers
  import opened Machine
  import opened Protocol
  import opened Trail
  import opened Invariants
  import opened Bounds

  ghost predicate Bounded(cfg: Config)
    requires WellFormed(cfg.def)
  {
    exists b: nat :: BoundedBy(cfg, b)
  }

  ghost predicate BoundedBy(cfg: Config, b: nat)
    requires WellFormed(cfg.def)
  {
    forall tape :: CrashFree(tape) ==> NumStarts(Run(cfg, tape).log) <= b
  }

  ghost predicate ListsModels(cfg: Config) {
    forall role :: Reachable(cfg, role) ==> Models(cfg, role) != []
  }

  // ---------------------------------------------------------------- limits exist

  function Longest(cfg: Config, roles: seq<Role>): nat {
    if roles == [] then 0
    else
      var rest := Longest(cfg, roles[1..]);
      if |Models(cfg, roles[0])| > rest then |Models(cfg, roles[0])| else rest
  }

  function Highest(retries: seq<nat>): nat {
    if retries == [] then 0
    else if retries[0] > Highest(retries[1..]) then retries[0] else Highest(retries[1..])
  }

  function HighestOf(cfg: Config, roles: seq<Role>): nat {
    if roles == [] then 0
    else
      var rest := HighestOf(cfg, roles[1..]);
      if Highest(Models(cfg, roles[0])) > rest then Highest(Models(cfg, roles[0])) else rest
  }

  lemma {:induction false} HighestBounds(retries: seq<nat>, i: nat)
    requires i < |retries|
    ensures retries[i] <= Highest(retries)
    decreases |retries|
  {
    if i > 0 {
      HighestBounds(retries[1..], i - 1);
    }
  }

  lemma {:induction false} RolesBounded(cfg: Config, roles: seq<Role>, role: Role)
    requires role in roles
    ensures |Models(cfg, role)| <= Longest(cfg, roles)
    ensures Highest(Models(cfg, role)) <= HighestOf(cfg, roles)
    decreases |roles|
  {
    if role != roles[0] {
      RolesBounded(cfg, roles[1..], role);
    }
  }

  lemma LimitsExist(cfg: Config)
    requires ListsModels(cfg) && CountsDispatches(cfg)
    ensures var roles := [cfg.def.orchestrator] + cfg.def.workers;
            Limits(cfg, Longest(cfg, roles), HighestOf(cfg, roles))
  {
    var roles := [cfg.def.orchestrator] + cfg.def.workers;
    forall role | Reachable(cfg, role)
      ensures 0 < |Models(cfg, role)| <= Longest(cfg, roles)
      ensures forall i :: 0 <= i < |Models(cfg, role)| ==> Models(cfg, role)[i] <= HighestOf(cfg, roles)
    {
      assert role in roles;
      RolesBounded(cfg, roles, role);
      forall i | 0 <= i < |Models(cfg, role)|
        ensures Models(cfg, role)[i] <= HighestOf(cfg, roles)
      {
        HighestBounds(Models(cfg, role), i);
      }
    }
  }

  // ---------------------------------------------------------------- failing for ever

  const MODEL_ERROR_TURN :=
    Turn(None, NoError, Some(ModelFailure), None, 0, [], false, false, false, GuardPassed, false, false)
  const MODEL_ERROR := Reply(true, None, MODEL_ERROR_TURN)

  function Errors(n: nat): seq<Answer> {
    if n == 0 then [] else [MODEL_ERROR, MODEL_ERROR] + Errors(n - 1)
  }

  lemma {:induction false} ErrorsCrashFree(n: nat)
    ensures CrashFree(Errors(n))
    decreases n
  {
    if n > 0 {
      ErrorsCrashFree(n - 1);
    }
  }

  /** A role on the system default model, about to be spawned, with nothing spent. */
  ghost predicate Doomed(cfg: Config, st: State) {
    && Inv(cfg, st, true) && PositiveCap(cfg) && Spent(st.log) == 0
    && st.phase.Spawning? && Models(cfg, st.phase.visit.role) == []
  }

  /** A spawn and a model error later it is about to be spawned again. */
  lemma ErrorRepeats(cfg: Config, st: State)
    requires Doomed(cfg, st)
    ensures var next := Step(cfg, Step(cfg, st, MODEL_ERROR), MODEL_ERROR);
            Doomed(cfg, next) && NumStarts(next.log) == NumStarts(st.log) + 1
  {
    hide BaseOf, LiveOf;
    BaseFacts(cfg, st, true);
    StepKeeps(cfg, st, MODEL_ERROR, true);
    var one := Step(cfg, st, MODEL_ERROR);
    SpawnSucceeds(cfg, st);
    StepKeeps(cfg, one, MODEL_ERROR, true);
    var x := one.phase.live;
    CloseKeeps(cfg, one, x, Failed(FromHost(ModelFailure)), 0, true);
    CloseStarts(one, x, Failed(FromHost(ModelFailure)), 0);
  }

  lemma SpawnSucceeds(cfg: Config, st: State)
    requires Inv(cfg, st, true) && st.phase.Spawning?
    ensures var one := OnSpawn(cfg, st, st.phase.visit, true, None);
            && one.phase.Prompting? && one.phase.live.visit == st.phase.visit
            && one.nextVisit == st.nextVisit && one.cp == st.cp.(active := one.cp.active)
            && Spent(one.log) == Spent(st.log) && NumStarts(one.log) == NumStarts(st.log) + 1
            && one.forced == st.forced && |one.log| == |st.log| + 2 && one.log[..|st.log|] == st.log
  {
    hide LiveOf;
    var one := OnSpawn(cfg, st, st.phase.visit, true, None);
    var rest := one.log[|st.log|..];
    assert one.log == st.log + rest && rest == [rest[0], rest[1]];
    SpentOfPair(st.log, rest[0], rest[1]);
    NumStartsOfTwo(rest[0], rest[1]);
    NumStartsAppend(st.log, rest);
  }

  lemma {:induction false} ErrorsForEver(cfg: Config, st: State, n: nat)
    requires Proper(cfg) && Doomed(cfg, st)
    ensures NumStarts(Play(cfg, st, Errors(n)).log) == NumStarts(st.log) + n
    decreases n
  {
    hide Step, Play, Doomed, NumStarts;
    if n == 0 {
      PlayNothing(cfg, st);
    } else {
      ErrorRepeats(cfg, st);
      var two := [MODEL_ERROR, MODEL_ERROR];
      PlayTwo(cfg, st, MODEL_ERROR, MODEL_ERROR);
      PlaySplit(cfg, st, two, Errors(n - 1));
      ErrorsForEver(cfg, Play(cfg, st, two), n - 1);
    }
  }

  lemma PlayTwo(cfg: Config, st: State, a: Answer, b: Answer)
    requires WellFormed(cfg.def)
    ensures Play(cfg, st, [a, b]) == Step(cfg, Step(cfg, st, a), b)
  {
    assert [a, b][..1] == [a];
    assert [a][..0] == [];
    assert Play(cfg, st, [a]) == Step(cfg, Play(cfg, st, []), a);
  }

  // ---------------------------------------------------------------- reaching the role

  function DispatchTo(w: Role): Answer {
    Reply(true, None, Turn(None, NoError, None, None, 0, [HandoffCapture(true, w, false)],
                           false, false, true, GuardPassed, false, false))
  }

  lemma BeginSpawnsHub(cfg: Config)
    requires Proper(cfg)
    ensures Begin(cfg).phase == Spawning(Visit(cfg.def.orchestrator, 1, 0, 0))
    ensures Begin(cfg).nextVisit == map[] && !Begin(cfg).forced
    ensures Spent(Begin(cfg).log) == 0 && NumStarts(Begin(cfg).log) == 0
    ensures Begin(cfg).cp == Initial(cfg.def)
  {
    var log := Begin(cfg).log;
    assert log[..0] == [];
  }

  lemma DispatchReaches(cfg: Config, w: Role)
    requires Proper(cfg) && PositiveCap(cfg) && w in cfg.def.workers && Count(cfg.def.maxVisits, w) > 0
    ensures var st := Play(cfg, Begin(cfg), [DispatchTo(w), DispatchTo(w)]);
            Free(cfg, st) && st.phase.visit.role == w
  {
    hide Free, Play, Begin;
    BeginFree(cfg);
    PlayTwo(cfg, Begin(cfg), DispatchTo(w), DispatchTo(w));
    DispatchedVisit(cfg, Begin(cfg), w);
  }

  /** About to spawn, in a crash-free run, with nothing spent and nothing deferred. */
  ghost predicate Free(cfg: Config, st: State) {
    && Inv(cfg, st, true) && PositiveCap(cfg) && Spent(st.log) == 0
    && st.phase.Spawning? && !st.forced
  }

  lemma BeginFree(cfg: Config)
    requires Proper(cfg) && PositiveCap(cfg)
    ensures Free(cfg, Begin(cfg)) && Begin(cfg).phase.visit.role == cfg.def.orchestrator
    ensures Begin(cfg).cp.visits == Initial(cfg.def).visits
  {
    BeginHolds(cfg);
    BeginSpawnsHub(cfg);
  }

  /** A free handoff the machine accepts: the session ends and its target is about to be spawned. */
  lemma HandoffMoves(cfg: Config, st: State, x: Live, target: Role)
    requires Inv(cfg, st, true) && st.phase == Prompting(x) && PositiveCap(cfg) && Spent(st.log) == 0 && !st.forced
    requires x.visit.role == cfg.def.orchestrator || target == cfg.def.orchestrator
    requires Reduce(st.cp, Handoff(target, false), cfg.def, At(x.visit.role), x.session.SessionFile()).Accepted?
    ensures var next := OnTurn(cfg, st, x, DispatchTo(target).turn);
            var r := Reduce(st.cp, Handoff(target, false), cfg.def, At(x.visit.role), x.session.SessionFile());
            && Spent(next.log) == 0 && next.phase.Spawning? && next.phase.visit.role == target && !next.forced
            && next.cp.visits == r.checkpoint.visits
            && |next.log| == |st.log| + 4 && next.log[..|st.log| + 1] == st.log + [Transition(r.record)]
            && NumStarts(next.log) == NumStarts(st.log)
  {
    hide BaseOf, Close, Spent, Reduce, NumStarts, AuditOf;
    var ev := Handoff(target, false);
    var file := x.session.SessionFile();
    BaseFacts(cfg, st, true);
    var r := Reduce(st.cp, ev, cfg.def, At(x.visit.role), file);
    AdvanceKeeps(cfg, st, ev, At(x.visit.role), file, true);
    var moved := Advance(st, r.checkpoint, r.record);
    SpentOfPair(st.log, Transition(r.record), Snapshot(r.checkpoint));
    NumStartsOfTwo(Transition(r.record), Snapshot(r.checkpoint));
    NumStartsAppend(st.log, [Transition(r.record), Snapshot(r.checkpoint)]);
    CloseKeeps(cfg, moved, x, Ended, 0, true);
    hide LiveOf;
    CloseStarts(moved, x, Ended, 0);
    CloseWrites(moved, x, 0);
    FreeTurnCommits(cfg, st, x, target);
    hide OnTurn;
  }

  /** Nothing stands between a free handoff and its commit. */
  lemma FreeTurnCommits(cfg: Config, st: State, x: Live, target: Role)
    requires WellFormed(cfg.def) && PositiveCap(cfg) && Spent(st.log) == 0
    requires x.visit.role == cfg.def.orchestrator || target == cfg.def.orchestrator
    requires Reduce(st.cp, Handoff(target, false), cfg.def, At(x.visit.role), x.session.SessionFile()).Accepted?
    ensures var r := Reduce(st.cp, Handoff(target, false), cfg.def, At(x.visit.role), x.session.SessionFile());
            OnTurn(cfg, st, x, DispatchTo(target).turn) == Commit(cfg, st, x, 0, r.checkpoint, r.record)
  {
    hide Reduce, Commit, ForceClose, Fail, FailAndStop;
    assert ValidateEmission(cfg, x.visit.role, DispatchTo(target).turn.captures) == Emitted(Handoff(target, false));
  }

  lemma CloseWrites(st: State, x: Live, cost: nat)
    requires Close(st, x, Ended, cost).Some?
    ensures var closed := Close(st, x, Ended, cost).value;
            |closed.log| == |st.log| + 2 && closed.log[..|st.log|] == st.log && closed.cp.visits == st.cp.visits
            && closed.forced == st.forced && closed.cp.current == st.cp.current
  {}

  /** The orchestrator is spawned, dispatches `w`, and `w` is about to be spawned. */
  lemma DispatchedVisit(cfg: Config, st: State, w: Role)
    requires Free(cfg, st) && st.phase.visit.role == cfg.def.orchestrator
    requires w in cfg.def.workers && Count(st.cp.visits, w) < Count(cfg.def.maxVisits, w)
    ensures var next := Step(cfg, Step(cfg, st, DispatchTo(w)), DispatchTo(w));
            && Free(cfg, next) && next.phase.visit.role == w
            && next.cp.visits == Counted(st.cp.visits, w)
            && NumStarts(next.log) == NumStarts(st.log) + 1
            && Dispatches(cfg.def, next.log, w) > Dispatches(cfg.def, st.log, w)
  {
    hide BaseOf, LiveOf, OnTurn, OnSpawn, Spent, NumStarts, Dispatches, Reduce;
    var go := DispatchTo(w);
    BaseFacts(cfg, st, true);
    SpawnSucceeds(cfg, st);
    StepKeeps(cfg, st, go, true);
    var one := Step(cfg, st, go);
    var x := one.phase.live;
    StepKeeps(cfg, one, go, true);
    BaseFacts(cfg, one, true);
    var file := x.session.SessionFile();
    DispatchAccepted(cfg.def, one.cp, w, file);
    HandoffMoves(cfg, one, x, w);
    var r := Reduce(one.cp, Handoff(w, false), cfg.def, At(x.visit.role), file);
    ReduceMoves(cfg.def, one.cp, Handoff(w, false), At(x.visit.role), file);
    var next := Step(cfg, one, go);
    DispatchCounted(cfg.def, one.log, Transition(r.record), w);
    DispatchesGrow(cfg.def, next.log, |one.log| + 1, w);
    DispatchesGrow(cfg.def, one.log, |st.log|, w);
  }

  lemma DispatchCounted(def: Definition, log: seq<Record>, r: Record, w: Role)
    requires r.Transition? && r.t.TransitionAccepted? && r.t.from == At(def.orchestrator) && r.t.to == At(w)
    ensures Dispatches(def, log + [r], w) == Dispatches(def, log, w) + 1
  {
    assert (log + [r])[..|log|] == log;
  }

  lemma {:induction false} DispatchesGrow(def: Definition, log: seq<Record>, n: nat, w: Role)
    requires n <= |log|
    ensures Dispatches(def, log[..n], w) <= Dispatches(def, log, w)
    decreases |log|
  {
    if n < |log| {
      assert log[..|log| - 1][..n] == log[..n];
      DispatchesGrow(def, log[..|log| - 1], n, w);
    } else {
      assert log[..n] == log;
    }
  }

  /** The worker is spawned and hands control back. */
  lemma ReturnedVisit(cfg: Config, st: State, w: Role)
    requires Free(cfg, st) && st.phase.visit.role == w && w != cfg.def.orchestrator
    ensures var back := DispatchTo(cfg.def.orchestrator);
            var next := Step(cfg, Step(cfg, st, back), back);
            && Free(cfg, next) && next.phase.visit.role == cfg.def.orchestrator
            && next.cp.visits == st.cp.visits
            && NumStarts(next.log) == NumStarts(st.log) + 1
            && Dispatches(cfg.def, next.log, w) >= Dispatches(cfg.def, st.log, w)
  {
    hide BaseOf, LiveOf, OnTurn, OnSpawn, Spent, NumStarts, Dispatches, Reduce;
    var back := DispatchTo(cfg.def.orchestrator);
    BaseFacts(cfg, st, true);
    SpawnSucceeds(cfg, st);
    StepKeeps(cfg, st, back, true);
    var one := Step(cfg, st, back);
    var x := one.phase.live;
    StepKeeps(cfg, one, back, true);
    BaseFacts(cfg, one, true);
    var file := x.session.SessionFile();
    ReturnAccepted(cfg.def, one.cp, file);
    HandoffMoves(cfg, one, x, cfg.def.orchestrator);
    ReduceMoves(cfg.def, one.cp, Handoff(cfg.def.orchestrator, false), At(x.visit.role), file);
    var next := Step(cfg, one, back);
    DispatchesGrow(cfg.def, next.log, |one.log| + 1, w);
    DispatchesGrow(cfg.def, next.log[..|one.log| + 1], |one.log|, w);
    DispatchesGrow(cfg.def, one.log, |st.log|, w);
  }

  lemma ReturnAccepted(def: Definition, cp: Checkpoint, file: File)
    requires WellFormed(def) && cp.current.At? && cp.current != At(def.orchestrator)
    ensures Reduce(cp, Handoff(def.orchestrator, false), def, cp.current, file).Accepted?
  {}

  // ---------------------------------------------------------------- dispatching for ever

  function RoundTrips(cfg: Config, w: Role, n: nat): seq<Answer> {
    if n == 0 then []
    else
      var go, back := DispatchTo(w), DispatchTo(cfg.def.orchestrator);
      [go, go, back, back] + RoundTrips(cfg, w, n - 1)
  }

  lemma {:induction false} RoundTripsCrashFree(cfg: Config, w: Role, n: nat)
    ensures CrashFree(RoundTrips(cfg, w, n))
    decreases n
  {
    if n > 0 {
      RoundTripsCrashFree(cfg, w, n - 1);
    }
  }

  lemma PlayFour(cfg: Config, st: State, go: Answer, back: Answer)
    requires WellFormed(cfg.def)
    ensures Play(cfg, st, [go, go, back, back]) == Step(cfg, Step(cfg, Step(cfg, Step(cfg, st, go), go), back), back)
  {
    hide Step;
    PlayTwo(cfg, st, go, go);
    PlayTwo(cfg, Play(cfg, st, [go, go]), back, back);
    PlaySplit(cfg, st, [go, go], [back, back]);
    assert [go, go] + [back, back] == [go, go, back, back];
  }

  /** A worker that is never counted is dispatched as often as the host likes. */
  lemma {:induction false} UncountedForEver(cfg: Config, st: State, w: Role, n: nat)
    requires Free(cfg, st) && st.phase.visit.role == cfg.def.orchestrator
    requires w in cfg.def.workers && !PlainName(w) && Count(st.cp.visits, w) < Count(cfg.def.maxVisits, w)
    ensures var next := Play(cfg, st, RoundTrips(cfg, w, n));
            && NumStarts(next.log) == NumStarts(st.log) + 2 * n
            && Dispatches(cfg.def, next.log, w) >= Dispatches(cfg.def, st.log, w) + n
    decreases n
  {
    hide Step, Play, Free, NumStarts, Dispatches;
    FreeFacts(cfg, st);
    if n == 0 {
      PlayNothing(cfg, st);
    } else {
      var go, back := DispatchTo(w), DispatchTo(cfg.def.orchestrator);
      var there := Step(cfg, Step(cfg, st, go), go);
      DispatchedVisit(cfg, st, w);
      FreeFacts(cfg, there);
      ReturnedVisit(cfg, there, w);
      PlayFour(cfg, st, go, back);
      PlaySplit(cfg, st, [go, go, back, back], RoundTrips(cfg, w, n - 1));
      UncountedForEver(cfg, Play(cfg, st, [go, go, back, back]), w, n - 1);
    }
  }

  lemma FreeFacts(cfg: Config, st: State)
    requires Free(cfg, st)
    ensures WellFormed(cfg.def) && st.phase.Spawning? && PositiveCap(cfg)
  {}

  lemma FreshRoundTrips(cfg: Config, w: Role, n: nat)
    requires Proper(cfg) && PositiveCap(cfg)
    requires w in cfg.def.workers && !PlainName(w) && Count(cfg.def.maxVisits, w) > 0
    ensures var tape := RoundTrips(cfg, w, n);
            && CrashFree(tape)
            && NumStarts(Run(cfg, tape).log) >= 2 * n
            && Dispatches(cfg.def, Run(cfg, tape).log, w) >= n
  {
    BeginFree(cfg);
    RoundTripsCrashFree(cfg, w, n);
    UncountedForEver(cfg, Begin(cfg), w, n);
  }

  lemma DispatchAccepted(def: Definition, cp: Checkpoint, w: Role, file: File)
    requires WellFormed(def) && cp.current == At(def.orchestrator)
    requires w in def.workers && Count(cp.visits, w) < Count(def.maxVisits, w)
    ensures Reduce(cp, Handoff(w, false), def, At(def.orchestrator), file).Accepted?
  {
  }

  // ---------------------------------------------------------------- a cap of zero

  /** With a cap of zero: the one session is the orchestrator's, and nothing is dispatched. */
  ghost predicate OneSession(cfg: Config, st: State, w: Role) {
    && Dispatches(cfg.def, st.log, w) == 0
    && match st.phase
       case Spawning(v) => v.role == cfg.def.orchestrator && NumStarts(st.log) == 0
       case Prompting(x) => x.visit.role == cfg.def.orchestrator && NumStarts(st.log) == 1
       case Stopped(_) => NumStarts(st.log) <= 1
  }

  lemma NoDispatchAppend(def: Definition, log: seq<Record>, a: Record, b: Record, w: Role)
    requires Dispatches(def, log, w) == 0
    requires a.Transition? && a.t.TransitionAccepted? ==> a.t.to != At(w)
    requires !b.Transition?
    ensures Dispatches(def, log + [a], w) == 0 && Dispatches(def, log + [a, b], w) == 0
  {
    assert (log + [a])[..|log|] == log;
    assert (log + [a, b])[..|log| + 1] == log + [a];
  }

  lemma CloseDispatches(cfg: Config, st: State, x: Live, ending: Ending, cost: nat, w: Role)
    requires Dispatches(cfg.def, st.log, w) == 0
    ensures var closed := Close(st, x, ending, cost);
            closed.Some? ==>
              Dispatches(cfg.def, closed.value.log, w) == 0 && NumStarts(closed.value.log) == NumStarts(st.log)
  {
    hide Dispatches, NumStarts;
    if Close(st, x, ending, cost).Some? {
      var rest := Close(st, x, ending, cost).value.log[|st.log|..];
      NoDispatchAppend(cfg.def, st.log, rest[0], rest[1], w);
      NumStartsOfTwo(rest[0], rest[1]);
      NumStartsAppend(st.log, rest);
      assert Close(st, x, ending, cost).value.log == st.log + rest && rest == [rest[0], rest[1]];
    }
  }

  lemma ForceEndDispatches(cfg: Config, st: State, w: Role)
    requires WellFormed(cfg.def) && Dispatches(cfg.def, st.log, w) == 0
    ensures Dispatches(cfg.def, ForceEnd(cfg, st).log, w) == 0
  {
    hide Dispatches;
    var next := ForceEnd(cfg, st);
    if next.log != st.log {
      var rest := next.log[|st.log|..];
      NoDispatchAppend(cfg.def, st.log, rest[0], rest[1], w);
      assert next.log == st.log + rest && rest == [rest[0], rest[1]];
    }
  }

  lemma SpawnDispatches(cfg: Config, st: State, v: Visit, spawned: bool, shared: Option<string>, w: Role)
    requires WellFormed(cfg.def) && Dispatches(cfg.def, st.log, w) == 0
    ensures Dispatches(cfg.def, OnSpawn(cfg, st, v, spawned, shared).log, w) == 0
  {
    hide Dispatches;
    var next := OnSpawn(cfg, st, v, spawned, shared);
    if next.log != st.log {
      var rest := next.log[|st.log|..];
      var last := Snapshot(st.cp);
      NoDispatchAppend(cfg.def, st.log, rest[0], if |rest| > 1 then rest[1] else last, w);
      assert next.log == st.log + rest && (rest == [rest[0]] || rest == [rest[0], rest[1]]);
    }
  }

  /** A failure at a cap of zero ends the run. */
  lemma FailureEnds(cfg: Config, st: State, x: Live, cause: Cause, cost: nat, reason: Option<HostReason>, w: Role)
    requires WellFormed(cfg.def) && cfg.cap == Some(0) && OneSession(cfg, st, w) && st.phase == Prompting(x)
    ensures OneSession(cfg, Fail(cfg, st, x, cause, cost, reason), w)
    ensures forall exit :: OneSession(cfg, FailAndStop(st, x, cause, cost, exit), w)
  {
    hide Dispatches, NumStarts, EnterSpawn;
    CloseDispatches(cfg, st, x, Failed(cause), cost, w);
  }

  lemma TurnKeepsOne(cfg: Config, st: State, x: Live, t: Turn, w: Role)
    requires WellFormed(cfg.def) && cfg.cap == Some(0) && OneSession(cfg, st, w) && st.phase == Prompting(x)
    ensures OneSession(cfg, OnTurn(cfg, st, x, t), w)
  {
    hide Dispatches, NumStarts, Fail, FailAndStop, Close, ForceEnd, Decide;
    FailureEnds(cfg, st, x, FromHost(UserAborted), t.usage, None, w);
    FailureEnds(cfg, st, x, RpcChildExit, t.usage, None, w);
    if t.after.Some? {
      FailureEnds(cfg, st, x, FromHost(t.after.value), t.usage, t.after, w);
    }
    if t.settled.Some? {
      FailureEnds(cfg, st, x, FromHost(t.settled.value), t.usage, t.settled, w);
    }
    match ValidateEmission(cfg, x.visit.role, t.captures)
    case Breach(cause) => FailureEnds(cfg, st, x, cause, t.usage, None, w);
    case Emitted(ev) =>
      CloseDispatches(cfg, st, x, Ended, t.usage, w);
      if Close(st, x, Ended, t.usage).Some? {
        var closed := Close(st, x, Ended, t.usage).value;
        ForceEndDispatches(cfg, closed, w);
        ForcedEndStarts(cfg, closed);
      }
  }

  lemma {:induction false} ZeroCapOneSession(cfg: Config, tape: seq<Answer>, w: Role)
    requires WellFormed(cfg.def) && cfg.cap == Some(0) && CrashFree(tape)
    ensures OneSession(cfg, Run(cfg, tape), w)
    decreases |tape|
  {
    if tape == [] {
      BeginSpawnsHub(cfg);
      NoDispatchAppend(cfg.def, [], Begin(cfg).log[0], Begin(cfg).log[0], w);
      assert Begin(cfg).log == [] + [Begin(cfg).log[0]];
    } else {
      var n := |tape| - 1;
      ZeroCapOneSession(cfg, tape[..n], w);
      var st := Run(cfg, tape[..n]);
      hide Dispatches, NumStarts, OnTurn, OnSpawn;
      match st.phase
      case Spawning(v) =>
        SpawnDispatches(cfg, st, v, tape[n].spawned, tape[n].shared, w);
        SpawnStarts(cfg, st, v, tape[n].spawned, tape[n].shared);
      case Prompting(x) => TurnKeepsOne(cfg, st, x, tape[n].turn, w);
      case Stopped(_) =>
    }
  }

  /**
   * The number of sessions is bounded, over everything the host may answer,
   * exactly when every reachable role lists at least one model and every
   * dispatchable worker can be counted, or the run's cost cap is zero.
   */
  lemma BoundedIffListedAndCounted(cfg: Config)
    requires Proper(cfg)
    ensures Bounded(cfg) <==> cfg.cap == Some(0) || (ListsModels(cfg) && CountsDispatches(cfg))
  {
    hide Run, Play, BaseOf, RoundTrips;
    if cfg.cap == Some(0) {
      BoundedAtZero(cfg);
    } else if !CountsDispatches(cfg) {
      var w :| w in cfg.def.workers && Count(cfg.def.maxVisits, w) > 0 && !PlainName(w);
      forall b: nat
        ensures !BoundedBy(cfg, b)
      {
        FreshRoundTrips(cfg, w, b + 1);
        assert NumStarts(Run(cfg, RoundTrips(cfg, w, b + 1)).log) > b;
      }
    } else if !ListsModels(cfg) {
      var role :| Reachable(cfg, role) && Models(cfg, role) == [];
      forall b: nat
        ensures !BoundedBy(cfg, b)
      {
        Overrun(cfg, role, b);
      }
    } else {
      BoundedWhenListed(cfg);
    }
  }

  lemma BoundedAtZero(cfg: Config)
    requires Proper(cfg) && cfg.cap == Some(0)
    ensures Bounded(cfg)
  {
    hide Run;
    forall tape | CrashFree(tape)
      ensures NumStarts(Run(cfg, tape).log) <= 1
    {
      ZeroCapOneSession(cfg, tape, "");
    }
    assert BoundedBy(cfg, 1);
  }

  lemma BoundedWhenListed(cfg: Config)
    requires Proper(cfg) && ListsModels(cfg) && CountsDispatches(cfg)
    ensures Bounded(cfg)
  {
    hide Run, BaseOf;
    var roles := [cfg.def.orchestrator] + cfg.def.workers;
    var k, r := Longest(cfg, roles), HighestOf(cfg, roles);
    LimitsExist(cfg);
    var b: nat := (2 * TotalVisits(cfg.def) + 1) * (k * (r + 1));
    forall tape | CrashFree(tape)
      ensures NumStarts(Run(cfg, tape).log) <= b
    {
      SessionBound(cfg, k, r, tape);
    }
    assert BoundedBy(cfg, b);
  }

  /** No crash-free run dispatches `w` past its cap. */
  ghost predicate CapBinds(cfg: Config, w: Role)
    requires WellFormed(cfg.def)
  {
    forall tape :: CrashFree(tape) ==> Dispatches(cfg.def, Run(cfg, tape).log, w) <= Count(cfg.def.maxVisits, w)
  }

  /**
   * The visit cap of a worker binds exactly when its name can be counted, or
   * nothing can be dispatched to it: its cap, or the run's cost cap, is zero.
   */
  lemma CapBindsIffPlain(cfg: Config, w: Role)
    requires Proper(cfg) && w in cfg.def.workers
    ensures CapBinds(cfg, w) <==> PlainName(w) || Count(cfg.def.maxVisits, w) == 0 || cfg.cap == Some(0)
  {
    hide Run, RoundTrips, Dispatches;
    if cfg.cap == Some(0) {
      forall tape | CrashFree(tape)
        ensures Dispatches(cfg.def, Run(cfg, tape).log, w) == 0
      {
        ZeroCapOneSession(cfg, tape, w);
      }
    } else if PlainName(w) || Count(cfg.def.maxVisits, w) == 0 {
      forall tape | CrashFree(tape)
        ensures Dispatches(cfg.def, Run(cfg, tape).log, w) <= Count(cfg.def.maxVisits, w)
      {
        DispatchesCapped(cfg, tape, w);
      }
    } else {
      var n := Count(cfg.def.maxVisits, w) + 1;
      FreshRoundTrips(cfg, w, n);
      assert Dispatches(cfg.def, Run(cfg, RoundTrips(cfg, w, n)).log, w) > Count(cfg.def.maxVisits, w);
    }
  }

  lemma DispatchesCapped(cfg: Config, tape: seq<Answer>, w: Role)
    requires Proper(cfg) && CrashFree(tape) && w in cfg.def.workers
    requires PlainName(w) || Count(cfg.def.maxVisits, w) == 0
    ensures Dispatches(cfg.def, Run(cfg, tape).log, w) <= Count(cfg.def.maxVisits, w)
  {
    hide Run;
    RunKeeps(cfg, tape);
    if PlainName(w) {
      CountIsDispatches(cfg.def, Run(cfg, tape).log, w);
    } else {
      NoDispatches(cfg.def, Run(cfg, tape).log, w);
    }
  }

  lemma {:induction false} NoDispatches(def: Definition, log: seq<Record>, w: Role)
    requires WellFormed(def) && AuditOf(def, log).ok && w in def.workers && Count(def.maxVisits, w) == 0
    ensures Dispatches(def, log, w) == 0
    decreases |log|
  {
    if log != [] {
      AuditCut(def, log, |log| - 1);
      AuditAt(def, log, |log| - 1);
      NoDispatches(def, log[..|log| - 1], w);
    }
  }

  lemma Overrun(cfg: Config, role: Role, b: nat)
    requires Proper(cfg) && PositiveCap(cfg) && Reachable(cfg, role) && Models(cfg, role) == []
    ensures !BoundedBy(cfg, b)
  {
    hide Play, Errors, Free, Doomed;
    var start := if role == cfg.def.orchestrator then [] else [DispatchTo(role), DispatchTo(role)];
    var tape := start + Errors(b + 1);
    ErrorsCrashFree(b + 1);
    PlaySplit(cfg, Begin(cfg), start, Errors(b + 1));
    var st := Play(cfg, Begin(cfg), start);
    if role == cfg.def.orchestrator {
      PlayNothing(cfg, Begin(cfg));
      BeginFree(cfg);
    } else {
      DispatchReaches(cfg, role);
    }
    FreeIsDoomed(cfg, st);
    ErrorsForEver(cfg, st, b + 1);
    assert CrashFree(tape);
    assert NumStarts(Run(cfg, tape).log) > b;
  }

  lemma FreeIsDoomed(cfg: Config, st: State)
    requires Free(cfg, st) && Models(cfg, st.phase.visit.role) == []
    ensures Doomed(cfg, st)
  {}

  lemma PlayNothing(cfg: Config, st: State)
    requires WellFormed(cfg.def)
    ensures Play(cfg, st, []) == st
  {
  }

  // ---------------------------------------------------------------- the cost cap and crashes

  /** A session that is aborted after it spent `cost`. */
  function AbortedAt(cost: nat): Answer {
    Reply(true, None, Turn(Some(UserAborted), NoError, None, None, cost, [],
                           false, false, false, GuardPassed, false, false))
  }

  /** The first session is aborted with its cost on record. */
  lemma AbortSpends(cfg: Config, cost: nat)
    requires Proper(cfg)
    ensures var st := Run(cfg, [AbortedAt(cost), AbortedAt(cost)]);
            && st.cp == Initial(cfg.def) && LatestSnapshot(st.log) == Some(st.cp) && Spent(st.log) == cost
  {
    var a := AbortedAt(cost);
    var s0 := Begin(cfg);
    BeginHolds(cfg);
    BeginSpawnsHub(cfg);
    SpawnSucceeds(cfg, s0);
    StepKeeps(cfg, s0, a, true);
    var s1 := Step(cfg, s0, a);
    PlayTwo(cfg, s0, a, a);
    hide BaseOf, LiveOf, Close, Spent, Initial;
    CloseKeeps(cfg, s1, s1.phase.live, Failed(FromHost(UserAborted)), cost, true);
    IsLatest(cfg, Close(s1, s1.phase.live, Failed(FromHost(UserAborted)), cost).value);
  }

  lemma IsLatest(cfg: Config, st: State)
    requires Base(cfg, st, true)
    ensures LatestSnapshot(st.log) == Some(st.cp)
  {}

  /** A process that resumes between sessions spawns at once, whatever is spent. */
  lemma ResumesBetween(cfg: Config, st: State)
    requires WellFormed(cfg.def) && LatestSnapshot(st.log) == Some(st.cp) && st.cp.current.At? && st.cp.active.None?
    ensures var next := Step(cfg, st, Crash(|st.log|));
            && next.phase.Spawning? && next.log == st.log && next.cp == st.cp
            && next.phase.visit.role == st.cp.current.role
  {
    assert st.log + [] == st.log;
  }

  /** A session starts at the cap. */
  ghost predicate StartsAtCap(cfg: Config, tape: seq<Answer>)
    requires WellFormed(cfg.def)
  {
    exists j :: 0 <= j < |Run(cfg, tape).log| && Run(cfg, tape).log[j].Started? &&
                CapReached(cfg, Run(cfg, tape).log[..j], 0)
  }

  /** Whatever is spent, a process due to spawn starts a session. */
  lemma SpawnsAtCap(cfg: Config, tape: seq<Answer>, a: Answer)
    requires Proper(cfg) && a.Reply? && a.spawned
    requires var st := Run(cfg, tape);
             && st.phase.Spawning? && CapReached(cfg, st.log, 0)
             && st.cp.current == At(st.phase.visit.role) && st.cp.active.None?
    ensures StartsAtCap(cfg, tape + [a])
  {
    var st := Run(cfg, tape);
    RunMore(cfg, tape, a);
    var log := Run(cfg, tape + [a]).log;
    hide Run, CapReached;
    assert log[..|st.log|] == st.log && log[|st.log|].Started?;
  }

  /**
   * With crashes a cost cap, however large, does not keep sessions from
   * starting once it is reached: none starts then, in every history, if and
   * only if there is no cap.
   */
  lemma NoStartAtCapIffUncapped(cfg: Config)
    requires Proper(cfg)
    ensures (forall tape :: !StartsAtCap(cfg, tape)) <==> cfg.cap.None?
  {
    hide Run, Initial, Step;
    if cfg.cap.Some? {
      var a := AbortedAt(cfg.cap.value);
      AbortSpends(cfg, cfg.cap.value);
      var st := Run(cfg, [a, a]);
      InitialFacts(cfg);
      ResumesBetween(cfg, st);
      var crashed := [a, a] + [Crash(|st.log|)];
      RunMore(cfg, [a, a], Crash(|st.log|));
      SpawnsAtCap(cfg, crashed, a);
    }
  }

  lemma InitialFacts(cfg: Config)
    ensures Initial(cfg.def).current == At(cfg.def.orchestrator) && Initial(cfg.def).active.None?
  {}
}
