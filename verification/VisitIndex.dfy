/**
 * Visit indexes across a whole history: a visit that begins, in a fresh run or
 * after any number of crashes, gets an index no earlier start of its role used.
 */
module VisitIndex {
  import opened Wrappers
  import opened Machine
  import opened Protocol
  import opened Invariants

  /** One past the highest index a start of the role has used. */
  function NextIn(log: seq<Record>, role: Role): nat {
    if role in NextVisitIndexes(log) then NextVisitIndexes(log)[role] else 1
  }

  lemma {:induction false} NextInIsAbove(log: seq<Record>, role: Role, i: nat)
    requires i < |log| && log[i].Started? && log[i].role == role
    ensures log[i].visitIndex < NextIn(log, role)
    decreases |log|
  {
    if i < |log| - 1 {
      NextInIsAbove(log[..|log| - 1], role, i);
    }
  }

  predicate NoStart(records: seq<Record>) {
    forall i :: 0 <= i < |records| ==> !records[i].Started?
  }

  lemma {:induction false} NoStartNoChange(log: seq<Record>, more: seq<Record>)
    requires NoStart(more)
    ensures NextVisitIndexes(log + more) == NextVisitIndexes(log)
    decreases |more|
  {
    if more == [] {
      assert log + more == log;
    } else {
      var n := |more| - 1;
      assert (log + more)[..|log + more| - 1] == log + more[..n];
      NoStartNoChange(log, more[..n]);
    }
  }

  /** Each role's next index is one past its highest; only the visit under way may have used its own already. */
  ghost predicate During(st: State, v: Visit, started: bool) {
    && v.index == Protocol.VisitIndex(st, v.role)
    && forall role ::
         NextIn(st.log, role) == Protocol.VisitIndex(st, role) + if role == v.role && started then 1 else 0
  }

  predicate Beginning(v: Visit) {
    v.model == 0 && v.retry == 0
  }

  ghost predicate Indexed(st: State) {
    match st.phase
    case Spawning(v) => During(st, v, !Beginning(v))
    case Prompting(x) => During(st, x.visit, true)
    case Stopped(_) => true
  }

  /**
   * What a step may do to the indexes without starting a session: keep the
   * visit, move it to its next attempt, or end it and begin another.
   */
  ghost predicate Turns(st: State, v: Visit, next: State) {
    && st.log <= next.log && NoStart(next.log[|st.log|..])
    && match next.phase
       case Stopped(_) => true
       case Prompting(x) => x.visit == v && next.nextVisit == st.nextVisit
       case Spawning(w) =>
         || (next.nextVisit == st.nextVisit && w.role == v.role && w.index == v.index && !Beginning(w))
         || (next.nextVisit == st.nextVisit[v.role := v.index + 1] && w.index == Protocol.VisitIndex(next, w.role) &&
             Beginning(w))
  }

  lemma TurnsKeepIndexes(st: State, v: Visit, next: State)
    requires During(st, v, true) && Turns(st, v, next)
    ensures Indexed(next)
  {
    var more := next.log[|st.log|..];
    assert next.log == st.log + more;
    NoStartNoChange(st.log, more);
    forall role
      ensures NextIn(next.log, role) == NextIn(st.log, role)
    {
    }
  }

  lemma EndVisitTurns(cfg: Config, st: State, v: Visit)
    requires WellFormed(cfg.def)
    ensures Turns(st, v, EndVisit(cfg, st, v))
  {
  }

  lemma AdvanceGrows(st: State, cp: Checkpoint, record: TransitionRecord)
    ensures var next := Advance(st, cp, record);
            st.log <= next.log && NoStart(next.log[|st.log|..]) && next.nextVisit == st.nextVisit
  {
  }

  lemma AttemptTurns(cfg: Config, st: State, v: Visit, next: Visit)
    requires WellFormed(cfg.def) && next.role == v.role && next.index == v.index && !Beginning(next)
    ensures Turns(st, v, EnterSpawn(cfg, st, next))
  {
    hide EnterHead, Reduce;
    if OutOfModels(cfg, next) && next.role != cfg.def.orchestrator {
      var r := Reduce(st.cp, Handoff(cfg.def.orchestrator, false), cfg.def, At(next.role), UNAVAILABLE_FILE);
      if r.Accepted? {
        var mid := Advance(st, r.checkpoint, r.record);
        AdvanceGrows(st, r.checkpoint, r.record);
        EndVisitTurns(cfg, mid, v);
        Chain(st, mid, v, EndVisit(cfg, mid, v));
      }
    }
  }

  lemma FailureTurns(cfg: Config, st: State, x: Live, reason: Option<HostReason>)
    requires WellFormed(cfg.def)
    ensures Turns(st, x.visit, AfterFailure(cfg, st, x.visit, reason))
  {
    hide EnterSpawn, OutOfModels, CapReached;
    var v := x.visit;
    if reason == Some(ModelFailure) && !CapReached(cfg, st.log, 0) {
      var retry := v.(retry := v.retry + 1);
      var next := v.(model := v.model + 1, retry := 0);
      var noted := Write(st, [ModelRetry(v.role, v.retry + 1, Retries(cfg, v))]);
      AttemptTurns(cfg, noted, v, retry);
      Chain(st, noted, v, EnterSpawn(cfg, noted, retry));
      var moved := Write(st, [ModelFallback(v.role, v.model + 1)]);
      AttemptTurns(cfg, moved, v, next);
      Chain(st, moved, v, EnterSpawn(cfg, moved, next));
      AttemptTurns(cfg, st, v, next);
    }
  }

  lemma FailTurns(cfg: Config, st: State, x: Live, cause: Cause, cost: nat, reason: Option<HostReason>)
    requires WellFormed(cfg.def)
    ensures Turns(st, x.visit, Fail(cfg, st, x, cause, cost, reason))
  {
    hide AfterFailure;
    if Close(st, x, Failed(cause), cost).Some? {
      var closed := Close(st, x, Failed(cause), cost).value;
      FailureTurns(cfg, closed, x, reason);
      Chain(st, closed, x.visit, AfterFailure(cfg, closed, x.visit, reason));
    }
  }

  lemma Chain(st: State, mid: State, v: Visit, next: State)
    requires st.log <= mid.log && NoStart(mid.log[|st.log|..]) && mid.nextVisit == st.nextVisit
    requires Turns(mid, v, next)
    ensures Turns(st, v, next)
  {
    var a: seq<Record> := mid.log[|st.log|..];
    var b: seq<Record> := next.log[|mid.log|..];
    assert next.log == st.log + (a + b);
    forall i: int | 0 <= i < |a + b|
      ensures !(a + b)[i].Started?
    {
    }
    assert next.log[|st.log|..] == a + b;
  }

  lemma CommitTurns(cfg: Config, st: State, x: Live, cost: nat, cp: Checkpoint, record: TransitionRecord)
    requires WellFormed(cfg.def)
    ensures Turns(st, x.visit, Commit(cfg, st, x, cost, cp, record))
  {
    hide EndVisit;
    var closed := Close(Advance(st, cp, record), x, Ended, cost);
    if closed.Some? {
      EndVisitTurns(cfg, closed.value, x.visit);
      Chain(st, closed.value, x.visit, EndVisit(cfg, closed.value, x.visit));
    }
  }

  lemma DecideTurns(cfg: Config, st: State, x: Live, t: Turn, ev: MachineEvent)
    requires WellFormed(cfg.def) && st.phase == Prompting(x)
    ensures Turns(st, x.visit, Decide(cfg, st, x, t, ev))
  {
    hide Reduce, Commit, FailAndStop;
    var r := Reduce(st.cp, ev, cfg.def, At(x.visit.role), x.session.SessionFile());
    if r.Accepted? {
      CommitTurns(cfg, st, x, t.usage, r.checkpoint, r.record);
      StopTurns(st, x, GuardCleanupUnconfirmed, t.usage, ExitFailed);
      StopTurns(st, x, FromHost(UserAborted), t.usage, ExitAborted);
      StopTurns(st, x, GuardExhausted, t.usage, ExitFailed);
    }
  }

  lemma TurnTurns(cfg: Config, st: State, x: Live, t: Turn)
    requires WellFormed(cfg.def) && st.phase == Prompting(x)
    ensures var next := OnTurn(cfg, st, x, t);
            Turns(st, x.visit, next) ||
            (next.phase.Prompting? && next == st.(phase := next.phase) && next.phase.live.visit == x.visit)
  {
    hide Fail, Decide, FailAndStop;
    StopTurns(st, x, FromHost(UserAborted), t.usage, ExitAborted);
    match ValidateEmission(cfg, x.visit.role, t.captures)
    case Breach(cause) =>
      if t.after.Some? {
        FailTurns(cfg, st, x, FromHost(t.after.value), t.usage, t.after);
      }
      FailTurns(cfg, st, x, if t.error == ChildExit then RpcChildExit else cause, t.usage, None);
    case Emitted(ev) =>
      EmissionTurns(cfg, st, x, t, ev);
  }

  lemma StopTurns(st: State, x: Live, cause: Cause, cost: nat, exit: Exit)
    ensures Turns(st, x.visit, FailAndStop(st, x, cause, cost, exit))
  {
  }

  /** The close at the cap stops the run without a start. */
  lemma ForceCloseTurns(cfg: Config, st: State, x: Live, cost: nat)
    requires WellFormed(cfg.def)
    ensures Turns(st, x.visit, ForceClose(cfg, st, x, cost))
  {
    hide Reduce;
  }

  lemma EmissionTurns(cfg: Config, st: State, x: Live, t: Turn, ev: MachineEvent)
    requires WellFormed(cfg.def) && st.phase == Prompting(x)
    ensures Turns(st, x.visit, OnEmission(cfg, st, x, t, ev))
  {
    hide Fail, Decide, ForceClose, CapReached;
    ForceCloseTurns(cfg, st, x, t.usage);
    var hub := x.visit.role == cfg.def.orchestrator;
    var settles := CapReached(cfg, st.log, t.usage) && (hub || ev.Handoff?);
    var st1 := if settles && !hub && t.settled != Some(DelegationFailed) then st.(forced := true) else st;
    var reason := if settles then t.settled else t.after;
    if reason.Some? {
      FailTurns(cfg, st1, x, FromHost(reason.value), t.usage, reason);
    }
    FailTurns(cfg, st1, x, RpcChildExit, t.usage, None);
    DecideTurns(cfg, st1, x, t, ev);
  }

  lemma SpawnKeepsIndexes(cfg: Config, st: State, v: Visit, spawned: bool, shared: Option<string>)
    requires WellFormed(cfg.def) && st.phase == Spawning(v) && Indexed(st)
    ensures Indexed(OnSpawn(cfg, st, v, spawned, shared))
  {
    var next := OnSpawn(cfg, st, v, spawned, shared);
    if next.phase.Prompting? {
      var r := next.log[|st.log|];
      var s := next.log[|st.log| + 1];
      assert next.log == st.log + [r] + [s];
      NoStartNoChange(st.log + [r], [s]);
      assert (st.log + [r])[..|st.log + [r]| - 1] == st.log;
      forall role
        ensures NextIn(next.log, role) ==
                if role == v.role && NextIn(st.log, role) <= v.index then v.index + 1 else NextIn(st.log, role)
      {
        IndexesPositive(st.log);
      }
    }
  }

  lemma {:induction false} IndexesPositive(log: seq<Record>)
    ensures forall role :: role in NextVisitIndexes(log) ==> NextVisitIndexes(log)[role] >= 1
    decreases |log|
  {
    if log != [] {
      IndexesPositive(log[..|log| - 1]);
    }
  }

  lemma ResumeIndexes(cfg: Config, log: seq<Record>, minted: nat)
    requires WellFormed(cfg.def)
    ensures Indexed(Resume(cfg, log, minted))
  {
    hide Reconciliation;
  }

  lemma {:induction false} RunIndexes(cfg: Config, tape: seq<Answer>)
    requires WellFormed(cfg.def)
    ensures Indexed(Run(cfg, tape))
    decreases |tape|
  {
    if tape == [] {
      var first := Begin(cfg).log;
      assert first[..0] == [];
      assert NextVisitIndexes(first) == map[];
    } else {
      var n := |tape| - 1;
      var st := Run(cfg, tape[..n]);
      RunIndexes(cfg, tape[..n]);
      match tape[n]
      case Crash(keep) => ResumeIndexes(cfg, Cut(st.log, keep), st.minted);
      case Reply(spawned, shared, turn) =>
        match st.phase
        case Spawning(v) => SpawnKeepsIndexes(cfg, st, v, spawned, shared);
        case Prompting(x) =>
          TurnTurns(cfg, st, x, turn);
          if Turns(st, x.visit, OnTurn(cfg, st, x, turn)) {
            TurnsKeepIndexes(st, x.visit, OnTurn(cfg, st, x, turn));
          }
        case Stopped(_) =>
    }
  }

  lemma {:induction false} NextInIsLeast(log: seq<Record>, role: Role)
    ensures NextIn(log, role) > 1 ==>
              exists i :: 0 <= i < |log| && log[i].Started? && log[i].role == role &&
                          log[i].visitIndex + 1 == NextIn(log, role)
    ensures NextIn(log, role) >= 1
    decreases |log|
  {
    IndexesPositive(log);
    if log != [] {
      var n := |log| - 1;
      NextInIsLeast(log[..n], role);
      if NextIn(log[..n], role) > 1 {
        var i :| 0 <= i < n && log[..n][i].Started? && log[..n][i].role == role &&
                 log[..n][i].visitIndex + 1 == NextIn(log[..n], role);
        assert log[i].Started? && log[i].role == role;
      }
    }
  }

  /**
   * A visit about to begin is numbered one past the highest index its role ever
   * persisted, the first one 1.
   */
  lemma FreshVisitIndex(cfg: Config, tape: seq<Answer>)
    requires WellFormed(cfg.def) && Run(cfg, tape).phase.Spawning? && Beginning(Run(cfg, tape).phase.visit)
    ensures var log, v := Run(cfg, tape).log, Run(cfg, tape).phase.visit;
            && v.index >= 1
            && (forall i :: 0 <= i < |log| && log[i].Started? && log[i].role == v.role ==> log[i].visitIndex < v.index)
            && (v.index > 1 ==>
                  exists i :: 0 <= i < |log| && log[i].Started? && log[i].role == v.role &&
                              log[i].visitIndex + 1 == v.index)
  {
    hide Run;
    RunIndexes(cfg, tape);
    var log, v := Run(cfg, tape).log, Run(cfg, tape).phase.visit;
    NextInIsLeast(log, v.role);
    forall i | 0 <= i < |log| && log[i].Started? && log[i].role == v.role
      ensures log[i].visitIndex < v.index
    {
      NextInIsAbove(log, v.role, i);
    }
  }
}
