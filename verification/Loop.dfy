/**
 * The loop as the program runs it: one object whose fields the nested loops
 * update, persisting record by record. Every method is proved to follow the
 * protocol machine, so each theorem about `Protocol.Run` is about this code.
 */
module Loop {
  import opened Wrappers
  import opened Machine
  import opened Protocol

  datatype Inner = InnerFailed | InnerDone | InnerAdvance

  /** `SessionWaits` and its kin: the host never answers again. */
  datatype SessionResult =
    | SessionOver(inner: Inner, reason: Option<HostReason>)
    | SessionStops(exit: Exit)
    | SessionWaits

  datatype VisitResult = VisitAdvances | VisitDone | VisitFailed | VisitExhausted | VisitStops(exit: Exit) | VisitWaits

  class Orchestrator {
    const cfg: Config
    const tape: seq<Answer>
    var pos: nat
    var cp: Checkpoint
    var log: seq<Record>
    var parent: Option<nat>
    var forced: bool
    var nextVisit: map<Role, nat>
    var minted: nat
    ghost var spec: State

    /** The machine has read exactly the answers this object has consumed. */
    ghost predicate Valid()
      reads this
    {
      && WellFormed(cfg.def)
      && pos <= |tape| && spec == Run(cfg, tape[..pos])
    }

    ghost function Now(phase: Phase): State
      reads this
    {
      State(cp, log, parent, forced, nextVisit, minted, phase)
    }

    /** The fields are those of the machine, one head-of-loop decision before it. */
    ghost predicate AtHead()
      reads this
      requires WellFormed(cfg.def)
    {
      spec == EnterHead(cfg, Now(spec.phase))
    }

    ghost predicate Starved()
      reads this
    {
      spec == Now(spec.phase) && (pos == |tape| || (pos < |tape| && tape[pos].Crash?))
    }

    /** What the fields mean once a turn is handled: the same prompt again, or a settled session. */
    ghost predicate Follows(result: Option<SessionResult>, before: State, next: State, x: Live)
      reads this
      requires WellFormed(cfg.def)
    {
      match result
      case None => next == Now(Prompting(x))
      case Some(settled) => settled != SessionWaits && Settles(settled, next, Prompting(x), x.visit)
    }

    ghost predicate Settles(result: SessionResult, next: State, phase: Phase, v: Visit)
      reads this
      requires WellFormed(cfg.def)
    {
      match result
      case SessionWaits => Starved()
      case SessionStops(exit) => next == Now(Stopped(exit))
      case SessionOver(inner, reason) =>
        match inner
        case InnerDone => next == Now(Stopped(ExitDone))
        case InnerAdvance => next == EndVisit(cfg, Now(phase), v)
        case InnerFailed => next == AfterFailure(cfg, Now(phase), v, reason)
    }

    ghost predicate AfterSession(result: SessionResult, v: Visit)
      reads this
      requires WellFormed(cfg.def)
    {
      Settles(result, spec, spec.phase, v)
    }

    constructor (cfg: Config, tape: seq<Answer>)
      requires WellFormed(cfg.def)
      ensures this.cfg == cfg && this.tape == tape && pos == 0
      ensures Valid() && AtHead()
    {
      this.cfg := cfg;
      this.tape := tape;
      pos := 0;
      cp := Initial(cfg.def);
      log := [Snapshot(Initial(cfg.def))];
      parent := None;
      forced := false;
      nextVisit := map[];
      minted := 0;
      spec := Begin(cfg);
      new;
      HeadIgnoresPhase(cfg, Now(Stopped(ExitFailed)), spec.phase);
    }

    /** The next answer, if the host still gives one in this process. */
    method Await() returns (a: Option<Answer>)
      requires Valid()
      modifies this`pos, this`spec
      ensures Valid() && (a.Some? ==> a.value.Reply?)
      ensures a.None? ==> pos == old(pos) && spec == old(spec) && (pos == |tape| || (pos < |tape| && tape[pos].Crash?))
      ensures a.Some? ==> pos == old(pos) + 1 && spec == Step(cfg, old(spec), a.value)
    {
      if pos == |tape| || tape[pos].Crash? {
        return None;
      }
      a := Some(tape[pos]);
      assert tape[..pos + 1][..pos] == tape[..pos];
      pos := pos + 1;
      spec := Step(cfg, spec, a.value);
    }

    method Persist(r: Record)
      modifies this`log
      ensures log == old(log) + [r]
    {
      log := log + [r];
    }

    /** `reduceLifecycle` terminal, its record, its snapshot. */
    method CloseSession(x: Live, ending: Ending, cost: nat) returns (ok: bool)
      modifies this`cp, this`log
      ensures var closed := Close(old(Now(Prompting(x))), x, ending, cost);
              if ok then closed.Some? && closed.value.cp == cp && closed.value.log == log
              else closed.None? && cp == old(cp) && log == old(log)
    {
      var ended := SessionTerminal(cp, x.visit.role, x.session.id);
      if ended.LifecycleError? {
        return false;
      }
      var r := Terminal(ending, x.visit.role, x.visit.index, cp.current, x.session.Identity(), x.parent, cost);
      cp := ended.checkpoint;
      Persist(r);
      Persist(Snapshot(cp));
      assert old(log) + [r] + [Snapshot(cp)] == old(log) + [r, Snapshot(cp)];
      return true;
    }

    /** The synthesized end, after the live session's own terminal if there is one. */
    method ForceRunCostCapEnd(active: Option<Live>, cost: nat) returns (exit: Exit)
      requires WellFormed(cfg.def)
      modifies this`cp, this`log
      ensures Now(Stopped(exit)) ==
              if active.Some? then ForceClose(cfg, old(Now(Prompting(active.value))), active.value, cost)
              else ForceEnd(cfg, old(Now(Stopped(ExitDone))))
    {
      if active.Some? {
        var ok := CloseSession(active.value, Ended, cost);
        if !ok {
          return Thrown(InvariantBroken);
        }
      }
      ghost var closed := log;
      var reduced := Reduce(cp, End(ByRunCostCap), cfg.def, At(cfg.def.orchestrator), CAP_END_FILE);
      if reduced.Broken? {
        return Thrown(InvariantBroken);
      }
      Persist(Transition(reduced.record));
      cp := reduced.checkpoint;
      Persist(Snapshot(cp));
      assert closed + [Transition(reduced.record)] + [Snapshot(cp)] ==
             closed + [Transition(reduced.record), Snapshot(cp)];
      return ExitDone;
    }

    /** Transition, snapshot, terminal, snapshot: in that order. */
    method PersistAcceptedTransition(x: Live, accepted: Checkpoint, record: TransitionRecord, cost: nat)
      returns (result: SessionResult)
      requires WellFormed(cfg.def)
      modifies this`cp, this`log
      ensures result != SessionWaits
      ensures Settles(result, Commit(cfg, old(Now(Prompting(x))), x, cost, accepted, record), Prompting(x), x.visit)
    {
      Persist(Transition(record));
      cp := accepted;
      Persist(Snapshot(cp));
      assert old(log) + [Transition(record)] + [Snapshot(cp)] == old(log) + [Transition(record), Snapshot(cp)];
      assert Now(Prompting(x)) == Advance(old(Now(Prompting(x))), accepted, record);
      var ok := CloseSession(x, Ended, cost);
      if !ok {
        return SessionStops(Thrown(InvariantBroken));
      }
      return SessionOver(if cp.current == Done then InnerDone else InnerAdvance, None);
    }

    /** A failed session that the visit may retry. */
    method FailSession(x: Live, cause: Cause, cost: nat, reason: Option<HostReason>) returns (result: SessionResult)
      requires WellFormed(cfg.def)
      modifies this`cp, this`log
      ensures result != SessionWaits
      ensures Settles(result, Fail(cfg, old(Now(Prompting(x))), x, cause, cost, reason), Prompting(x), x.visit)
    {
      var ok := CloseSession(x, Failed(cause), cost);
      if !ok {
        return SessionStops(Thrown(InvariantBroken));
      }
      return SessionOver(InnerFailed, reason);
    }

    /** An abort or a spent end guard: the run stops with the session. */
    method StopSession(x: Live, cause: Cause, cost: nat, exit: Exit) returns (result: SessionResult)
      modifies this`cp, this`log
      ensures result.SessionStops? &&
              Now(Stopped(result.exit)) == FailAndStop(old(Now(Prompting(x))), x, cause, cost, exit)
    {
      var ok := CloseSession(x, Failed(cause), cost);
      return SessionStops(if ok then exit else Thrown(InvariantBroken));
    }

    /** A captured event that no host reason stopped: reduce it, guard an end, persist. */
    method DecideEvent(x: Live, t: Turn, ev: MachineEvent) returns (result: Option<SessionResult>)
      requires WellFormed(cfg.def)
      modifies this`cp, this`log
      ensures Follows(result, old(Now(Prompting(x))), Decide(cfg, old(Now(Prompting(x))), x, t, ev), x)
    {
      hide Reduce, Commit, FailAndStop, Close;
      var reduced := Reduce(cp, ev, cfg.def, At(x.visit.role), x.session.SessionFile());
      if reduced.Broken? {
        return Some(SessionStops(Thrown(InvariantBroken)));
      }
      if reduced.Rejected? {
        Persist(Transition(reduced.record));
        return None;
      }
      var settled: SessionResult;
      if cfg.guarded && x.visit.role == cfg.def.orchestrator && ev == End(ByRole) {
        if t.guard == GuardFatal {
          settled := StopSession(x, GuardCleanupUnconfirmed, t.usage, ExitFailed);
          return Some(settled);
        }
        if t.guard == GuardAborted || t.abortRequested {
          settled := StopSession(x, FromHost(UserAborted), t.usage, ExitAborted);
          return Some(settled);
        }
        if t.guard == GuardOutOfBudget {
          settled := StopSession(x, GuardExhausted, t.usage, ExitFailed);
          return Some(settled);
        }
        if t.guard == GuardRetry || t.lateGuidance {
          return None;
        }
      }
      settled := PersistAcceptedTransition(x, reduced.checkpoint, reduced.record, t.usage);
      return Some(settled);
    }

    /** The cost cap, then the host's reason, then re-prompts, then the machine. */
    method HandleEmission(x: Live, t: Turn, ev: MachineEvent) returns (result: Option<SessionResult>)
      requires WellFormed(cfg.def)
      modifies this`cp, this`log, this`forced
      ensures Follows(result, old(Now(Prompting(x))), OnEmission(cfg, old(Now(Prompting(x))), x, t, ev), x)
    {
      hide Decide, Fail, ForceClose;
      var settled: SessionResult;
      var breached := CapReached(cfg, log, t.usage);
      var reason := t.after;
      if breached && x.visit.role == cfg.def.orchestrator {
        if t.settled != Some(DelegationFailed) {
          var exit := ForceRunCostCapEnd(Some(x), t.usage);
          return Some(SessionStops(exit));
        }
        reason := t.settled;
      }
      if breached && x.visit.role != cfg.def.orchestrator && ev.Handoff? {
        if t.settled != Some(DelegationFailed) {
          forced := true;
        }
        reason := t.settled;
      }
      if reason.Some? || t.error == ChildExit {
        settled := FailSession(x, if reason.Some? then FromHost(reason.value) else RpcChildExit, t.usage, reason);
        return Some(settled);
      }
      if t.pendingChildren || (ev.End? && t.guidance) || (!cfg.v2 && ev.Handoff? && !t.envelopeOk) {
        return None;
      }
      result := DecideEvent(x, t, ev);
    }

    /** Prompts the live session until it settles. */
    method RunSessionTurn(v: Visit, s: Session, sessionParent: Option<nat>) returns (result: SessionResult)
      requires Valid() && spec == Now(Prompting(Live(v, s, sessionParent, 0)))
      modifies this
      ensures Valid() && pos >= old(pos) && AfterSession(result, v)
    {
      hide Play, Run, OnEmission, Fail, FailAndStop, EndVisit, AfterFailure;
      var recoveries := 0;
      while true
        invariant Valid() && pos >= old(pos)
        invariant spec == Now(Prompting(Live(v, s, sessionParent, recoveries)))
        decreases |tape| - pos
      {
        var x := Live(v, s, sessionParent, recoveries);
        var answer := Await();
        if answer.None? {
          return SessionWaits;
        }
        var t := answer.value.turn;
        if t.before == Some(UserAborted) || t.after == Some(UserAborted) {
          result := StopSession(x, FromHost(UserAborted), t.usage, ExitAborted);
          return;
        }
        if t.error == OtherError && t.after.None? {
          return SessionStops(Thrown(PromptThrew));
        }
        var validated := ValidateEmission(cfg, v.role, t.captures);
        if validated.Breach? {
          if t.after.None? && t.error != ChildExit && validated.cause == NoEmission &&
             recoveries < MAX_RECOVERY_PROMPTS {
            recoveries := recoveries + 1;
            continue;
          }
          result := FailSession(
            x,
            if t.after.Some? then FromHost(t.after.value)
              else if t.error == ChildExit then RpcChildExit
              else validated.cause,
            t.usage, t.after);
          SettledIgnoresPhase(cfg, Now(Prompting(x)), spec.phase, v, result);
          return;
        }
        var settled := HandleEmission(x, t, validated.ev);
        if settled.Some? {
          result := settled.value;
          SettledIgnoresPhase(cfg, Now(Prompting(x)), spec.phase, v, result);
          return;
        }
      }
    }

    /** Starts the spawned session, then prompts it. */
    method RunSession(v: Visit, shared: Option<string>) returns (result: SessionResult)
      requires Valid() && spec == OnSpawn(cfg, Now(Spawning(v)), v, true, shared)
      modifies this
      ensures Valid() && pos >= old(pos) && AfterSession(result, v)
    {
      var s := Session(minted, shared);
      var sessionParent := parent;
      var started := SessionStarted(cp, v.role, s.id, s.SessionFile());
      if started.LifecycleError? {
        return SessionStops(Thrown(InvariantBroken));
      }
      var r := Started(v.role, v.index, cp.current, s.Identity(), sessionParent);
      cp := started.checkpoint;
      Persist(r);
      Persist(Snapshot(cp));
      assert old(log) + [r] + [Snapshot(cp)] == old(log) + [r, Snapshot(cp)];
      parent := Some(s.id);
      minted := minted + 1;
      result := RunSessionTurn(v, s, sessionParent);
    }

    /** After a failed session: the same model again, the next model, or neither. */
    method PlanAttempt(v: Visit, reason: Option<HostReason>) returns (next: Option<Visit>)
      requires Valid() && spec == AfterFailure(cfg, Now(spec.phase), v, reason)
      modifies this
      ensures Valid() && pos == old(pos)
      ensures next.None? ==> spec == Now(Stopped(ExitFailed))
      ensures next.Some? ==>
                && next.value == Visit(v.role, v.index, next.value.model, next.value.retry)
                && spec == EnterSpawn(cfg, Now(spec.phase), next.value)
    {
      hide Play, Run, EnterHead, Reduce, EnterSpawn;
      if reason != Some(ModelFailure) || CapReached(cfg, log, 0) {
        return None;
      }
      var allowed := Retries(cfg, v);
      if v.retry < allowed {
        Persist(ModelRetry(v.role, v.retry + 1, allowed));
        return Some(v.(retry := v.retry + 1));
      }
      if v.model + 1 < |Models(cfg, v.role)| {
        Persist(ModelFallback(v.role, v.model + 1));
      }
      next := Some(v.(model := v.model + 1, retry := 0));
    }

    /** One visit: spawn, run, retry, fall back. */
    method RunRoleVisit(role: Role, index: nat) returns (result: VisitResult)
      requires Valid() && spec == Now(Spawning(Visit(role, index, 0, 0)))
      modifies this
      ensures Valid() && pos >= old(pos)
      ensures !result.VisitWaits? && !result.VisitStops? && !result.VisitExhausted? ==> pos > old(pos)
      ensures result.VisitExhausted? ==> pos > old(pos) || OutOfModels(cfg, Visit(role, index, 0, 0))
      ensures match result
              case VisitWaits => Starved()
              case VisitStops(exit) => spec == Now(Stopped(exit))
              case VisitDone => spec == Now(Stopped(ExitDone))
              case VisitFailed => spec == Now(Stopped(ExitFailed))
              case VisitAdvances => spec == EndVisit(cfg, Now(spec.phase), Visit(role, index, 0, 0))
              case VisitExhausted => spec == Exhaust(cfg, Now(spec.phase), Visit(role, index, 0, 0))
    {
      hide Play, Run, EnterHead, Reduce, SessionStarted, AfterFailure;
      var modelIndex: nat := 0;
      var retryAttempt: nat := 0;
      while true
        invariant Valid() && pos >= old(pos)
        invariant spec == EnterSpawn(cfg, Now(spec.phase), Visit(role, index, modelIndex, retryAttempt))
        invariant pos > old(pos) || (modelIndex == 0 && retryAttempt == 0)
        decreases |tape| - pos
      {
        var v := Visit(role, index, modelIndex, retryAttempt);
        if OutOfModels(cfg, v) {
          return VisitExhausted;
        }
        var answer := Await();
        if answer.None? {
          return VisitWaits;
        }
        assert spec == OnSpawn(cfg, Now(Spawning(v)), v, answer.value.spawned, answer.value.shared);
        if !answer.value.spawned {
          if modelIndex > 0 {
            Persist(Terminal(Failed(FallbackStartFailed), role, index, cp.current, Ident(None, FALLBACK_FILE), parent,
                             0));
            return VisitFailed;
          }
          return VisitStops(Thrown(SpawnThrew));
        }
        var session := RunSession(v, answer.value.shared);
        match session {
          case SessionWaits => return VisitWaits;
          case SessionStops(exit) => return VisitStops(exit);
          case SessionOver(inner, reason) =>
            if inner == InnerDone {
              return VisitDone;
            }
            if inner == InnerAdvance {
              return VisitAdvances;
            }
            var next := PlanAttempt(v, reason);
            if next.None? {
              return VisitFailed;
            }
            modelIndex, retryAttempt := next.value.model, next.value.retry;
        }
      }
    }

    /** A role out of models returns control; the orchestrator has nobody to return it to. */
    method HandBack(role: Role, index: nat) returns (stop: Option<Exit>)
      requires Valid() && spec == Exhaust(cfg, Now(spec.phase), Visit(role, index, 0, 0))
      modifies this
      ensures Valid() && pos == old(pos)
      ensures stop.Some? ==> spec == Now(Stopped(stop.value))
      ensures stop.None? ==> AtHead()
    {
      hide Play, Run, Reduce, EnterHead;
      stop := None;
      if role == cfg.def.orchestrator {
        return Some(ExitFailed);
      }
      var reduced := Reduce(cp, Handoff(cfg.def.orchestrator, false), cfg.def, At(role), UNAVAILABLE_FILE);
      if !reduced.Accepted? {
        return Some(Thrown(InvariantBroken));
      }
      ghost var was := log;
      Persist(Transition(reduced.record));
      cp := reduced.checkpoint;
      Persist(Snapshot(cp));
      assert was + [Transition(reduced.record)] + [Snapshot(cp)] == was + [Transition(reduced.record), Snapshot(cp)];
      nextVisit := nextVisit[role := index + 1];
    }

    /** The outer loop of one process. */
    method RunLoop() returns (exit: Option<Exit>)
      requires Valid() && AtHead()
      modifies this
      ensures Valid() && pos >= old(pos)
      ensures exit.Some? ==> spec == Now(Stopped(exit.value))
      ensures exit.None? ==> Starved()
    {
      hide Play, Run, Reduce;
      while cp.current != Done
        invariant Valid() && AtHead() && pos >= old(pos)
        decreases |tape| - pos
      {
        if forced {
          if cp.current != At(cfg.def.orchestrator) {
            return Some(Thrown(InvariantBroken));
          }
          var ended := ForceRunCostCapEnd(None, 0);
          return Some(ended);
        }
        if cp.active.Some? {
          return Some(Thrown(InvariantBroken));
        }
        var role := cp.current.role;
        var index := if role in nextVisit then nextVisit[role] else 1;
        var visit := RunRoleVisit(role, index);
        match visit {
          case VisitWaits => return None;
          case VisitStops(reason) => return Some(reason);
          case VisitDone => return Some(ExitDone);
          case VisitFailed => return Some(ExitFailed);
          case VisitExhausted =>
            var stop := HandBack(role, index);
            if stop.Some? {
              return stop;
            }
          case VisitAdvances =>
            nextVisit := nextVisit[role := index + 1];
        }
      }
      return Some(ExitDone);
    }

    // -------------------------------------------------------------- recovery

    /** `latestCheckpoint`: the backward scan of the log. */
    method LatestCheckpoint() returns (found: Option<Checkpoint>)
      ensures found == LatestSnapshot(log)
    {
      var i := |log|;
      assert log[..|log|] == log;
      while i > 0
        invariant 0 <= i <= |log| && LatestSnapshot(log) == LatestSnapshot(log[..i])
      {
        assert log[..i][..i - 1] == log[..i - 1];
        i := i - 1;
        if log[i].Snapshot? {
          return Some(log[i].checkpoint);
        }
      }
      return None;
    }

    /** `reconcileCrash`: find the start, look for its terminal, append what is missing. */
    method ReconcileCrash(found: Checkpoint) returns (resumed: Checkpoint)
      modifies this`log
      ensures log == old(log) + Reconciliation(old(log), found)
      ensures resumed == if Reconciliation(old(log), found) == [] then found else found.(active := None)
    {
      assert log + [] == log;
      if found.active.None? {
        return found;
      }
      var a := found.active.value;
      LatestStartIsStart(log, a);
      var i := |log|;
      while i > 0 && !StartMatches(log[i - 1], a)
        invariant 0 <= i <= |log|
        invariant forall k :: i <= k < |log| ==> !StartMatches(log[k], a)
      {
        i := i - 1;
      }
      if i == 0 {
        return found;
      }
      i := i - 1;
      assert LatestStart(log, a) == Some(i);
      var started := log[i];
      var hasTerminal := false;
      var j := i + 1;
      while j < |log| && !hasTerminal
        invariant i < j <= |log|
        invariant hasTerminal ==> HasTerminal(log, i, a)
        invariant !hasTerminal ==> forall k :: i < k < j ==> !TerminalMatches(log[k], log[i], a)
        decreases |log| - j, !hasTerminal
      {
        if TerminalMatches(log[j], started, a) {
          hasTerminal := true;
        } else {
          j := j + 1;
        }
      }
      resumed := found.(active := None);
      if hasTerminal {
        Persist(Snapshot(resumed));
      } else {
        var lost := Terminal(Failed(LostInCrash), a.role, started.visitIndex, found.current,
                             Ident(started.ident.logical, a.file), started.parent, 0);
        Persist(lost);
        Persist(Snapshot(resumed));
        assert old(log) + [lost] + [Snapshot(resumed)] == old(log) + [lost, Snapshot(resumed)];
      }
    }

    /** `nextVisitIndexes`: the forward scan over durable starts. */
    method ReadVisitIndexes() returns (next: map<Role, nat>)
      ensures next == NextVisitIndexes(log)
    {
      next := map[];
      for i := 0 to |log|
        invariant next == NextVisitIndexes(log[..i])
      {
        assert log[..i + 1][..i] == log[..i];
        var r := log[i];
        if r.Started? && !(r.role in next && r.visitIndex < next[r.role]) {
          next := next[r.role := r.visitIndex + 1];
        }
      }
      assert log[..|log|] == log;
    }

    /** The process died and a new one finds what the cut left on disk. */
    method Recover() returns (ready: bool)
      requires Valid() && spec == Now(spec.phase)
      requires pos < |tape| && tape[pos].Crash?
      modifies this
      ensures Valid() && pos == old(pos) + 1
      ensures if ready then AtHead() else spec == Now(spec.phase) && spec.phase.Stopped?
    {
      ghost var answer := tape[pos];
      assert tape[..pos + 1][..pos] == tape[..pos];
      var keep := tape[pos].keep;
      pos := pos + 1;
      spec := Step(cfg, spec, answer);
      log := Cut(log, keep);
      parent := None;
      forced := false;
      var found := LatestCheckpoint();
      if found.None? {
        cp := Initial(cfg.def);
        nextVisit := map[];
        return false;
      }
      ghost var cut := log;
      cp := ReconcileCrash(found.value);
      ResumedIsLatest(cut, found.value);
      nextVisit := ReadVisitIndexes();
      HeadIgnoresPhase(cfg, Now(Stopped(ExitFailed)), spec.phase);
      return true;
    }

    /** A whole history: run, crash, recover, run again, until the answers end. */
    method RunHistory()
      requires Valid() && AtHead()
      modifies this
      ensures pos == |tape|
      ensures exists phase :: Run(cfg, tape) == Now(phase)
    {
      hide Step, EnterHead;
      var ready := true;
      while true
        invariant Valid()
        invariant if ready then AtHead() else spec == Now(spec.phase) && spec.phase.Stopped?
        decreases |tape| - pos, ready
      {
        if ready {
          var exit := RunLoop();
          ready := false;
          if exit.None? && pos < |tape| {
            ready := Recover();
            continue;
          }
          if exit.None? {
            break;
          }
        }
        while pos < |tape| && tape[pos].Reply?
          invariant Valid() && spec == Now(spec.phase) && spec.phase.Stopped?
        {
          assert tape[..pos + 1][..pos] == tape[..pos];
          StoppedIgnores(cfg, spec, tape[pos]);
          pos := pos + 1;
        }
        if pos == |tape| {
          break;
        }
        ready := Recover();
      }
      assert tape[..|tape|] == tape;
    }
  }

  lemma StoppedIgnores(cfg: Config, st: State, answer: Answer)
    requires WellFormed(cfg.def) && st.phase.Stopped? && answer.Reply?
    ensures Step(cfg, st, answer) == st
  {
  }

  lemma HeadIgnoresPhase(cfg: Config, st: State, phase: Phase)
    requires WellFormed(cfg.def)
    ensures EnterHead(cfg, st.(phase := phase)) == EnterHead(cfg, st)
  {
  }

  lemma SpawnIgnoresPhase(cfg: Config, st: State, phase: Phase, v: Visit)
    requires WellFormed(cfg.def)
    ensures EnterSpawn(cfg, st.(phase := phase), v) == EnterSpawn(cfg, st, v)
  {
    hide EnterHead, Reduce, OutOfModels;
    var r := Reduce(st.cp, Handoff(cfg.def.orchestrator, false), cfg.def, At(v.role), UNAVAILABLE_FILE);
    if r.Accepted? {
      var moved := Advance(st, r.checkpoint, r.record);
      HeadIgnoresPhase(cfg, moved.(nextVisit := moved.nextVisit[v.role := v.index + 1]), phase);
    }
  }

  lemma FailureIgnoresPhase(cfg: Config, st: State, phase: Phase, v: Visit, reason: Option<HostReason>)
    requires WellFormed(cfg.def)
    ensures AfterFailure(cfg, st.(phase := phase), v, reason) == AfterFailure(cfg, st, v, reason)
    ensures EndVisit(cfg, st.(phase := phase), v) == EndVisit(cfg, st, v)
  {
    hide EnterHead, EnterSpawn, CapReached;
    HeadIgnoresPhase(cfg, st.(nextVisit := st.nextVisit[v.role := v.index + 1]), phase);
    var retry, fallback := v.(retry := v.retry + 1), v.(model := v.model + 1, retry := 0);
    SpawnIgnoresPhase(cfg, Write(st, [ModelRetry(v.role, v.retry + 1, Retries(cfg, v))]), phase, retry);
    SpawnIgnoresPhase(cfg, Write(st, [ModelFallback(v.role, v.model + 1)]), phase, fallback);
    SpawnIgnoresPhase(cfg, st, phase, fallback);
  }

  lemma SettledIgnoresPhase(cfg: Config, st: State, phase: Phase, v: Visit, result: SessionResult)
    requires WellFormed(cfg.def)
    ensures result.SessionOver? ==>
              && AfterFailure(cfg, st.(phase := phase), v, result.reason) == AfterFailure(cfg, st, v, result.reason)
              && EndVisit(cfg, st.(phase := phase), v) == EndVisit(cfg, st, v)
  {
    if result.SessionOver? {
      FailureIgnoresPhase(cfg, st, phase, v, result.reason);
    }
  }

  /** The checkpoint recovery returns is the latest one of the log it leaves. */
  lemma ResumedIsLatest(log: seq<Record>, cp: Checkpoint)
    requires LatestSnapshot(log) == Some(cp)
    ensures LatestSnapshot(log + Reconciliation(log, cp)) ==
            Some(if Reconciliation(log, cp) == [] then cp else cp.(active := None))
  {
    var extra := Reconciliation(log, cp);
    if extra == [] {
      assert log + extra == log;
    } else {
      assert extra[|extra| - 1] == Snapshot(cp.(active := None));
    }
  }
}
