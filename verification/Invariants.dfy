/**
 * What every step of a run keeps, with crashes anywhere (`clean` false) or
 * with none (`clean` true, which adds the audit of the log and the cost cap).
 */
module Invariants {
  import opened Wrappers
  import opened Machine
  import opened Protocol
  import opened Ledger
  import opened Trail

  /** No session starts once the persisted cost has reached a positive cap. */
  ghost predicate StartsUnderCap(cfg: Config, log: seq<Record>) {
    log == [] ||
    (StartsUnderCap(cfg, log[..|log| - 1]) &&
     (log[|log| - 1].Started? ==> !CapReached(cfg, log[..|log| - 1], 0)))
  }

  ghost predicate Proper(cfg: Config) {
    WellFormed(cfg.def)
  }

  ghost predicate PositiveCap(cfg: Config) {
    cfg.cap.Some? ==> cfg.cap.value > 0
  }

  ghost predicate Clean(cfg: Config, cp: Checkpoint, log: seq<Record>) {
    var a := AuditOf(cfg.def, log);
    && a.ok && !a.pending && a.cp == cp
    && (cp.active.Some? <==> a.open.Some?)
    && (cp.endRequest.Some? ==> IsRequest(cfg.def, a.last, cp.endRequest.value.role))
    && (PositiveCap(cfg) ==> StartsUnderCap(cfg, log))
  }

  ghost predicate BaseOf(cfg: Config, cp: Checkpoint, log: seq<Record>, minted: nat, clean: bool) {
    && Proper(cfg) && Sound(cfg.def, cp)
    && LatestSnapshot(log) == Some(cp)
    && log != [] && log[0].Snapshot?
    && (forall i :: 0 <= i < |log| && log[i].Snapshot? ==> Sound(cfg.def, log[i].checkpoint))
    && BookOf(log).ok
    && (forall id :: id in BookOf(log).starts ==> id < minted)
    && (clean ==> Clean(cfg, cp, log))
  }

  ghost predicate LiveOf(cfg: Config, cp: Checkpoint, log: seq<Record>, x: Live, clean: bool) {
    && cp.active == Some(Active(x.session.id, x.visit.role, x.session.SessionFile()))
    && x.session.id in BookOf(log).starts
    && (var s := BookOf(log).starts[x.session.id];
        s.Started? && s.ident == x.session.Identity() && s.role == x.visit.role)
    && x.session.id !in BookOf(log).ended
    && (clean ==>
          var a := AuditOf(cfg.def, log);
          && !a.over && a.open.Some? && a.open.value.Started?
          && a.open.value.role == x.visit.role && a.open.value.visitIndex == x.visit.index
          && a.open.value.ident == x.session.Identity() && a.open.value.parent == x.parent)
  }

  ghost predicate Base(cfg: Config, st: State, clean: bool) {
    BaseOf(cfg, st.cp, st.log, st.minted, clean)
  }

  /** The session is the live one: started, not ended, and named by the checkpoint. */
  ghost predicate LiveFor(cfg: Config, st: State, x: Live, clean: bool) {
    && BaseOf(cfg, st.cp, st.log, st.minted, clean)
    && LiveOf(cfg, st.cp, st.log, x, clean)
  }

  /** No session is live and the run goes on. */
  ghost predicate Idle(cfg: Config, st: State, clean: bool) {
    && BaseOf(cfg, st.cp, st.log, st.minted, clean)
    && st.cp.active.None?
    && (clean ==> !AuditOf(cfg.def, st.log).over)
  }

  lemma BaseFacts(cfg: Config, st: State, clean: bool)
    requires Base(cfg, st, clean)
    ensures WellFormed(cfg.def) && Sound(cfg.def, st.cp)
    ensures clean ==>
              var a := AuditOf(cfg.def, st.log);
              a.ok && !a.pending && a.cp == st.cp && (st.cp.active.Some? <==> a.open.Some?)
  {
  }

  // ---------------------------------------------------------------- one record, one snapshot

  lemma UnderCapAppend(cfg: Config, log: seq<Record>, r: Record)
    requires StartsUnderCap(cfg, log) && (r.Started? ==> !CapReached(cfg, log, 0))
    ensures StartsUnderCap(cfg, log + [r])
  {
    assert (log + [r])[..|log + [r]| - 1] == log;
  }

  lemma UnderCapAppendTwo(cfg: Config, log: seq<Record>, r: Record, s: Record)
    requires StartsUnderCap(cfg, log) && (r.Started? ==> !CapReached(cfg, log, 0)) && !s.Started?
    ensures StartsUnderCap(cfg, log + [r, s])
  {
    UnderCapAppend(cfg, log, r);
    UnderCapAppend(cfg, log + [r], s);
    assert log + [r, s] == log + [r] + [s];
  }

  /** The record and its snapshot may follow: the book stays in order, and the audit if there was no crash. */
  ghost predicate PairFits(cfg: Config, st: State, r: Record, cp: Checkpoint, minted: nat, clean: bool) {
    && !r.Snapshot? && Sound(cfg.def, cp)
    && (var b := Ledger.Enter(BookOf(st.log), r);
        b.ok && SnapshotFits(b, cp) && (forall id :: id in b.starts ==> id < minted))
    && (clean ==>
          var a := Read(cfg.def, AuditOf(cfg.def, st.log), r);
          && a.ok && a.pending && a.cp == cp && (cp.active.Some? <==> a.open.Some?)
          && (cp.endRequest.Some? ==> IsRequest(cfg.def, a.last, cp.endRequest.value.role))
          && (PositiveCap(cfg) && r.Started? ==> !CapReached(cfg, st.log, 0)))
  }

  /** The bookkeeping shared by every record-and-snapshot pair. */
  lemma PairKeeps(cfg: Config, st: State, r: Record, cp: Checkpoint, minted: nat, clean: bool)
    requires Base(cfg, st, clean) && PairFits(cfg, st, r, cp, minted, clean)
    ensures Base(cfg, Write(st, [r, Snapshot(cp)]).(cp := cp, minted := minted), clean)
    ensures BookOf(st.log + [r, Snapshot(cp)]) == Ledger.Enter(Ledger.Enter(BookOf(st.log), r), Snapshot(cp))
    ensures clean ==> AuditOf(cfg.def, st.log + [r, Snapshot(cp)]) ==
                      Read(cfg.def, AuditOf(cfg.def, st.log), r).(pending := false)
  {
    var log := st.log + [r, Snapshot(cp)];
    BookAppendTwo(st.log, r, Snapshot(cp));
    LatestAppend(st.log + [r], Snapshot(cp));
    assert log == st.log + [r] + [Snapshot(cp)];
    if clean {
      AuditAppendTwo(cfg.def, st.log, r, Snapshot(cp));
      if PositiveCap(cfg) {
        UnderCapAppendTwo(cfg, st.log, r, Snapshot(cp));
      }
    }
  }

  /** A record that changes no state: a rejection, a retry or a fallback note. */
  lemma NoteKeeps(cfg: Config, st: State, r: Record, clean: bool)
    requires Base(cfg, st, clean)
    requires r.ModelRetry? || r.ModelFallback? || (r.Transition? && r.t.TransitionRejected?)
    requires clean ==> Read(cfg.def, AuditOf(cfg.def, st.log), r) == AuditOf(cfg.def, st.log)
    ensures Base(cfg, Write(st, [r]), clean)
    ensures BookOf(st.log + [r]) == BookOf(st.log)
    ensures AuditOf(cfg.def, st.log + [r]) == Read(cfg.def, AuditOf(cfg.def, st.log), r)
  {
    BookAppend(st.log, r);
    LatestAppend(st.log, r);
    AuditAppend(cfg.def, st.log, r);
    if clean && PositiveCap(cfg) {
      UnderCapAppend(cfg, st.log, r);
    }
  }

  lemma CloseFits(cfg: Config, st: State, x: Live, ending: Ending, cost: nat, clean: bool)
    requires LiveFor(cfg, st, x, clean)
    ensures PairFits(cfg, st, Terminal(ending, x.visit.role, x.visit.index, st.cp.current, x.session.Identity(),
                                       x.parent, cost), st.cp.(active := None), st.minted, clean)
  {
    SettledOfOk(st.log);
  }

  lemma CloseKeeps(cfg: Config, st: State, x: Live, ending: Ending, cost: nat, clean: bool)
    requires LiveFor(cfg, st, x, clean)
    ensures Close(st, x, ending, cost).Some?
    ensures var closed := Close(st, x, ending, cost).value;
            && Idle(cfg, closed, clean)
            && closed == st.(cp := st.cp.(active := None), log := closed.log)
            && Spent(closed.log) == Spent(st.log) + cost
            && (clean ==> AuditOf(cfg.def, closed.log).last == AuditOf(cfg.def, st.log).last)
  {
    var cp := st.cp.(active := None);
    var r := Terminal(ending, x.visit.role, x.visit.index, st.cp.current, x.session.Identity(), x.parent, cost);
    CloseFits(cfg, st, x, ending, cost, clean);
    hide PairFits;
    PairKeeps(cfg, st, r, cp, st.minted, clean);
    var log := st.log + [r, Snapshot(cp)];
    assert log[..|log| - 1] == st.log + [r];
    assert (st.log + [r])[..|st.log + [r]| - 1] == st.log;
  }

  lemma MovesKeepActive(def: Definition, cp: Checkpoint, ev: MachineEvent, file: File, next: Checkpoint)
    requires Moves(def, cp, ev, file, next)
    ensures next.active == cp.active
  {}

  /** A role end under gating was asked for; without gating nothing ever is. */
  lemma EndIsAsked(def: Definition, cp: Checkpoint, who: Place, file: File)
    requires WellFormed(def) && Sound(def, cp)
    requires Reduce(cp, End(ByRole), def, who, file).Accepted?
    ensures def.endRequestRoles.Some? <==> cp.endRequest.Some?
  {}

  /** The auditor reads an accepted transition as the reducer made it. */
  lemma TransitionReads(def: Definition, a: Audit, cp: Checkpoint, ev: MachineEvent, who: Place, file: File)
    requires WellFormed(def) && Sound(def, cp)
    requires Reduce(cp, ev, def, who, file).Accepted?
    requires a.ok && !a.pending && !a.over && a.cp == cp
    requires cp.endRequest.Some? ==> IsRequest(def, a.last, cp.endRequest.value.role)
    ensures var r := Reduce(cp, ev, def, who, file);
            && Read(def, a, Transition(r.record)) ==
               a.(cp := r.checkpoint, last := Some(r.record), pending := true)
            && (r.checkpoint.endRequest.Some? ==>
                  IsRequest(def, Some(r.record), r.checkpoint.endRequest.value.role))
  {
    ReduceMoves(def, cp, ev, who, file);
    if ev == End(ByRole) {
      EndIsAsked(def, cp, who, file);
    }
    hide Reduce;
  }

  /** An accepted transition keeps whatever was live, live, and whatever was idle, idle. */
  lemma AdvanceKeeps(cfg: Config, st: State, ev: MachineEvent, who: Place, file: File, clean: bool)
    requires Base(cfg, st, clean)
    requires Reduce(st.cp, ev, cfg.def, who, file).Accepted?
    requires clean ==> !AuditOf(cfg.def, st.log).over
    requires st.cp.active.Some? ==> st.cp.active.value.id !in BookOf(st.log).ended
    ensures var r := Reduce(st.cp, ev, cfg.def, who, file);
            var next := Advance(st, r.checkpoint, r.record);
            && Base(cfg, next, clean) && Moves(cfg.def, st.cp, ev, file, next.cp)
            && r.record.TransitionAccepted? && r.record.event == ev
            && BookOf(next.log).starts == BookOf(st.log).starts
            && BookOf(next.log).ended == BookOf(st.log).ended
            && (clean ==>
                  && AuditOf(cfg.def, next.log).open == AuditOf(cfg.def, st.log).open
                  && AuditOf(cfg.def, next.log).last == Some(r.record)
                  && !AuditOf(cfg.def, next.log).over)
  {
    hide Reduce, Moves, Continues, Replayed;
    var r := Reduce(st.cp, ev, cfg.def, who, file);
    ReduceMoves(cfg.def, st.cp, ev, who, file);
    MovesKeepActive(cfg.def, st.cp, ev, file, r.checkpoint);
    SettledOfOk(st.log);
    if clean {
      TransitionReads(cfg.def, AuditOf(cfg.def, st.log), st.cp, ev, who, file);
    }
    PairKeeps(cfg, st, Transition(r.record), r.checkpoint, st.minted, clean);
  }

  // ---------------------------------------------------------------- the phase invariant

  /** The visit owns the machine's position. */
  ghost predicate InVisit(cfg: Config, st: State, v: Visit) {
    && st.cp.current == At(v.role)
    && (st.forced ==> v.role != cfg.def.orchestrator)
  }

  ghost predicate ReadyToSpawn(cfg: Config, st: State, v: Visit, clean: bool) {
    && Idle(cfg, st, clean) && InVisit(cfg, st, v) && !OutOfModels(cfg, v)
    && (clean && PositiveCap(cfg) ==> !CapReached(cfg, st.log, 0))
  }

  /** At the loop head: a deferred close waits for the orchestrator only. */
  ghost predicate ReadyForHead(cfg: Config, st: State, clean: bool) {
    && Idle(cfg, st, clean)
    && (st.forced ==> st.cp.current == At(cfg.def.orchestrator))
    && (clean ==> st.cp.current != Done)
    && (clean && PositiveCap(cfg) && !st.forced ==> !CapReached(cfg, st.log, 0))
  }

  /** The last accepted transition is an end; a deferred close ends by the cost cap. */
  ghost predicate EndedBy(cfg: Config, st: State) {
    var last := AuditOf(cfg.def, st.log).last;
    && last.Some? && last.value.TransitionAccepted? && last.value.event.End?
    && (st.forced ==> last.value.event == End(ByRunCostCap))
  }

  ghost predicate Inv(cfg: Config, st: State, clean: bool) {
    && BaseOf(cfg, st.cp, st.log, st.minted, clean)
    && match st.phase
       case Spawning(v) => ReadyToSpawn(cfg, st, v, clean)
       case Prompting(x) => LiveFor(cfg, st, x, clean) && InVisit(cfg, st, x.visit)
       case Stopped(exit) =>
         && (exit.Thrown? ==> exit.fault == PromptThrew || exit.fault == SpawnThrew)
         && (exit == ExitDone ==> st.cp.current == Done)
         && (st.cp.current == Done ==> exit == ExitDone)
         && (clean && exit == ExitDone ==> EndedBy(cfg, st))
  }

  lemma ForceEndKeeps(cfg: Config, st: State, clean: bool)
    requires Idle(cfg, st, clean) && st.cp.current == At(cfg.def.orchestrator)
    ensures Inv(cfg, ForceEnd(cfg, st), clean)
    ensures ForceEnd(cfg, st).phase == Stopped(ExitDone)
    ensures clean ==> AuditOf(cfg.def, ForceEnd(cfg, st).log).last.value.event == End(ByRunCostCap)
  {
    AdvanceKeeps(cfg, st, End(ByRunCostCap), At(cfg.def.orchestrator), CAP_END_FILE, clean);
  }

  lemma EnterHeadKeeps(cfg: Config, st: State, clean: bool)
    requires ReadyForHead(cfg, st, clean)
    ensures Inv(cfg, EnterHead(cfg, st), clean)
  {
    if st.cp.current != Done && st.forced {
      ForceEndKeeps(cfg, st, clean);
    }
  }

  lemma ExhaustKeeps(cfg: Config, st: State, v: Visit, clean: bool)
    requires Idle(cfg, st, clean) && InVisit(cfg, st, v)
    requires clean && PositiveCap(cfg) ==> !CapReached(cfg, st.log, 0)
    ensures Inv(cfg, Exhaust(cfg, st, v), clean)
  {
    hide BaseOf, AuditOf, Spent, EnterHead;
    BaseFacts(cfg, st, clean);
    if v.role != cfg.def.orchestrator {
      var ev := Handoff(cfg.def.orchestrator, false);
      AdvanceKeeps(cfg, st, ev, At(v.role), UNAVAILABLE_FILE, clean);
      var r := Reduce(st.cp, ev, cfg.def, At(v.role), UNAVAILABLE_FILE);
      var next := Advance(st, r.checkpoint, r.record);
      SpentOfPair(st.log, Transition(r.record), Snapshot(r.checkpoint));
      EnterHeadKeeps(cfg, next.(nextVisit := next.nextVisit[v.role := v.index + 1]), clean);
    }
  }

  lemma SpentOfPair(log: seq<Record>, r: Record, s: Record)
    ensures Spent(log + [r]) == Spent(log) + if r.Terminal? then r.cost else 0
    ensures Spent(log + [r, s]) ==
            Spent(log) + (if r.Terminal? then r.cost else 0) + (if s.Terminal? then s.cost else 0)
  {
    assert (log + [r])[..|log + [r]| - 1] == log;
    assert (log + [r, s])[..|log + [r, s]| - 1] == log + [r];
  }

  lemma EnterSpawnKeeps(cfg: Config, st: State, v: Visit, clean: bool)
    requires Idle(cfg, st, clean) && InVisit(cfg, st, v)
    requires clean && PositiveCap(cfg) ==> !CapReached(cfg, st.log, 0)
    ensures Inv(cfg, EnterSpawn(cfg, st, v), clean)
  {
    if OutOfModels(cfg, v) {
      ExhaustKeeps(cfg, st, v, clean);
    }
  }

  lemma StartFits(cfg: Config, st: State, v: Visit, s: Session, clean: bool)
    requires ReadyToSpawn(cfg, st, v, clean) && s.id == st.minted && Genuine(s.Identity())
    ensures PairFits(cfg, st, Started(v.role, v.index, st.cp.current, s.Identity(), st.parent),
                     st.cp.(active := Some(Active(s.id, v.role, s.SessionFile()))), st.minted + 1, clean)
    ensures WellFormed(cfg.def) && st.minted !in BookOf(st.log).starts && st.minted !in BookOf(st.log).ended
    ensures clean ==>
              var r := Started(v.role, v.index, st.cp.current, s.Identity(), st.parent);
              var a := Read(cfg.def, AuditOf(cfg.def, st.log), r);
              !a.over && a.open == Some(r)
  {
    hide OutOfModels, CapReached;
    SettledOfOk(st.log);
    StartsFiled(st.log);
  }

  lemma StartKeeps(cfg: Config, st: State, v: Visit, shared: Option<string>, clean: bool)
    requires ReadyToSpawn(cfg, st, v, clean)
    ensures Inv(cfg, OnSpawn(cfg, st, v, true, shared), clean)
  {
    hide Inv, OutOfModels, CapReached, PairFits, BaseOf;
    var s := Session(st.minted, shared);
    var cp := st.cp.(active := Some(Active(s.id, v.role, s.SessionFile())));
    var r := Started(v.role, v.index, st.cp.current, s.Identity(), st.parent);
    StartFits(cfg, st, v, s, clean);
    var next := OnSpawn(cfg, st, v, true, shared);
    PairKeeps(cfg, st, r, cp, st.minted + 1, clean);
    var x := Live(v, s, st.parent, 0);
    assert next.cp == cp && next.log == st.log + [r, Snapshot(cp)] && next.phase == Prompting(x);
    assert LiveFor(cfg, next, x, clean);
    PromptingHolds(cfg, next, x, clean);
  }

  lemma PromptingHolds(cfg: Config, st: State, x: Live, clean: bool)
    requires LiveFor(cfg, st, x, clean) && InVisit(cfg, st, x.visit) && st.phase == Prompting(x)
    ensures Inv(cfg, st, clean)
  {
    hide BaseOf, LiveOf;
  }

  lemma OnSpawnKeeps(cfg: Config, st: State, v: Visit, spawned: bool, shared: Option<string>, clean: bool)
    requires ReadyToSpawn(cfg, st, v, clean)
    ensures Inv(cfg, OnSpawn(cfg, st, v, spawned, shared), clean)
  {
    if spawned {
      StartKeeps(cfg, st, v, shared, clean);
    } else if v.model > 0 {
      FallbackFailureKeeps(cfg, st, v, shared, clean);
    }
  }

  lemma FallbackFailureKeeps(cfg: Config, st: State, v: Visit, shared: Option<string>, clean: bool)
    requires ReadyToSpawn(cfg, st, v, clean) && v.model > 0
    ensures Inv(cfg, OnSpawn(cfg, st, v, false, shared), clean)
  {
    hide CapReached, Continues, Replayed, SessionStarted, OutOfModels, Reduce;
    var r := Terminal(Failed(FallbackStartFailed), v.role, v.index, st.cp.current,
                      Ident(None, FALLBACK_FILE), st.parent, 0);
    BookAppend(st.log, r);
    LatestAppend(st.log, r);
    AuditAppend(cfg.def, st.log, r);
    if clean && PositiveCap(cfg) {
      UnderCapAppend(cfg, st.log, r);
    }
  }

  lemma AfterFailureKeeps(cfg: Config, st: State, x: Live, reason: Option<HostReason>, clean: bool)
    requires Idle(cfg, st, clean) && InVisit(cfg, st, x.visit)
    ensures Inv(cfg, AfterFailure(cfg, st, x.visit, reason), clean)
  {
    hide BaseOf, AuditOf, BookOf, Spent, EnterSpawn;
    BaseFacts(cfg, st, clean);
    var v := x.visit;
    if reason == Some(ModelFailure) && !CapReached(cfg, st.log, 0) {
      if v.retry < Retries(cfg, v) {
        var r := ModelRetry(v.role, v.retry + 1, Retries(cfg, v));
        NoteKeeps(cfg, st, r, clean);
        SpentOfPair(st.log, r, r);
        EnterSpawnKeeps(cfg, Write(st, [r]), v.(retry := v.retry + 1), clean);
      } else {
        var next := v.(model := v.model + 1, retry := 0);
        if v.model + 1 < |Models(cfg, v.role)| {
          var r := ModelFallback(v.role, v.model + 1);
          NoteKeeps(cfg, st, r, clean);
          SpentOfPair(st.log, r, r);
          EnterSpawnKeeps(cfg, Write(st, [r]), next, clean);
        } else {
          EnterSpawnKeeps(cfg, st, next, clean);
        }
      }
    }
  }

  lemma FailKeeps(cfg: Config, st: State, x: Live, cause: Cause, cost: nat, reason: Option<HostReason>, clean: bool)
    requires LiveFor(cfg, st, x, clean) && InVisit(cfg, st, x.visit)
    ensures Inv(cfg, Fail(cfg, st, x, cause, cost, reason), clean)
  {
    CloseKeeps(cfg, st, x, Failed(cause), cost, clean);
    AfterFailureKeeps(cfg, Close(st, x, Failed(cause), cost).value, x, reason, clean);
  }

  lemma FailAndStopKeeps(cfg: Config, st: State, x: Live, cause: Cause, cost: nat, exit: Exit, clean: bool)
    requires LiveFor(cfg, st, x, clean) && InVisit(cfg, st, x.visit)
    requires exit == ExitFailed || exit == ExitAborted
    ensures Inv(cfg, FailAndStop(st, x, cause, cost, exit), clean)
  {
    CloseKeeps(cfg, st, x, Failed(cause), cost, clean);
  }

  /**
   * An accepted event of the live session. At the orchestrator the run is under
   * its cap; a worker whose cost reaches the cap has the close deferred.
   */
  lemma CommitKeeps(cfg: Config, st: State, x: Live, cost: nat, ev: MachineEvent, clean: bool)
    requires LiveFor(cfg, st, x, clean) && InVisit(cfg, st, x.visit)
    requires Reduce(st.cp, ev, cfg.def, At(x.visit.role), x.session.SessionFile()).Accepted?
    requires clean && PositiveCap(cfg) && CapReached(cfg, st.log, cost) ==>
               st.forced && x.visit.role != cfg.def.orchestrator
    ensures var r := Reduce(st.cp, ev, cfg.def, At(x.visit.role), x.session.SessionFile());
            Inv(cfg, Commit(cfg, st, x, cost, r.checkpoint, r.record), clean)
  {
    hide BaseOf, AuditOf, BookOf, Spent, EnterHead, Reduce, Close;
    BaseFacts(cfg, st, clean);
    var file := x.session.SessionFile();
    var r := Reduce(st.cp, ev, cfg.def, At(x.visit.role), file);
    AdvanceKeeps(cfg, st, ev, At(x.visit.role), file, clean);
    var moved := Advance(st, r.checkpoint, r.record);
    SpentOfPair(st.log, Transition(r.record), Snapshot(r.checkpoint));
    CloseKeeps(cfg, moved, x, Ended, cost, clean);
    var closed := Close(moved, x, Ended, cost).value;
    if closed.cp.current != Done {
      EnterHeadKeeps(cfg, closed.(nextVisit := closed.nextVisit[x.visit.role := x.visit.index + 1]), clean);
    }
  }

  lemma DecideKeeps(cfg: Config, st: State, x: Live, t: Turn, ev: MachineEvent, clean: bool)
    requires LiveFor(cfg, st, x, clean) && InVisit(cfg, st, x.visit) && st.phase == Prompting(x)
    requires clean && PositiveCap(cfg) && CapReached(cfg, st.log, t.usage) &&
             !(ev.End? && x.visit.role != cfg.def.orchestrator) ==>
               st.forced && x.visit.role != cfg.def.orchestrator
    ensures Inv(cfg, Decide(cfg, st, x, t, ev), clean)
  {
    hide BaseOf, AuditOf, BookOf, Spent, Commit, FailAndStop;
    BaseFacts(cfg, st, clean);
    var file := x.session.SessionFile();
    var r := Reduce(st.cp, ev, cfg.def, At(x.visit.role), file);
    ReduceMoves(cfg.def, st.cp, ev, At(x.visit.role), file);
    if r.Rejected? {
      NoteKeeps(cfg, st, Transition(r.record), clean);
    } else {
      CommitKeeps(cfg, st, x, t.usage, ev, clean);
      if cfg.guarded && x.visit.role == cfg.def.orchestrator && ev == End(ByRole) {
        FailAndStopKeeps(cfg, st, x, GuardCleanupUnconfirmed, t.usage, ExitFailed, clean);
        FailAndStopKeeps(cfg, st, x, FromHost(UserAborted), t.usage, ExitAborted, clean);
        FailAndStopKeeps(cfg, st, x, GuardExhausted, t.usage, ExitFailed, clean);
      }
    }
  }

  lemma OnEmissionKeeps(cfg: Config, st: State, x: Live, t: Turn, ev: MachineEvent, clean: bool)
    requires LiveFor(cfg, st, x, clean) && InVisit(cfg, st, x.visit) && st.phase == Prompting(x)
    ensures Inv(cfg, OnEmission(cfg, st, x, t, ev), clean)
  {
    var breached := CapReached(cfg, st.log, t.usage);
    var hub := x.visit.role == cfg.def.orchestrator;
    var settles := breached && (hub || ev.Handoff?);
    if breached && hub && t.settled != Some(DelegationFailed) {
      CloseKeeps(cfg, st, x, Ended, t.usage, clean);
      ForceEndKeeps(cfg, Close(st, x, Ended, t.usage).value, clean);
    } else {
      var st1 := if settles && !hub && t.settled != Some(DelegationFailed) then st.(forced := true) else st;
      var reason := if settles then t.settled else t.after;
      assert LiveFor(cfg, st1, x, clean) && InVisit(cfg, st1, x.visit);
      if reason.Some? {
        FailKeeps(cfg, st1, x, FromHost(reason.value), t.usage, reason, clean);
      } else if t.error == ChildExit {
        FailKeeps(cfg, st1, x, RpcChildExit, t.usage, None, clean);
      } else if t.pendingChildren || (ev.End? && t.guidance) || (!cfg.v2 && ev.Handoff? && !t.envelopeOk) {
      } else {
        DecideKeeps(cfg, st1, x, t, ev, clean);
      }
    }
  }

  lemma OnTurnKeeps(cfg: Config, st: State, x: Live, t: Turn, clean: bool)
    requires LiveFor(cfg, st, x, clean) && InVisit(cfg, st, x.visit) && st.phase == Prompting(x)
    ensures Inv(cfg, OnTurn(cfg, st, x, t), clean)
  {
    if t.before == Some(UserAborted) || t.after == Some(UserAborted) {
      FailAndStopKeeps(cfg, st, x, FromHost(UserAborted), t.usage, ExitAborted, clean);
    } else if t.error == OtherError && t.after.None? {
    } else {
      match ValidateEmission(cfg, x.visit.role, t.captures)
      case Emitted(ev) => OnEmissionKeeps(cfg, st, x, t, ev, clean);
      case Breach(cause) =>
        if t.after.None? && t.error != ChildExit && cause == NoEmission && x.recoveries < MAX_RECOVERY_PROMPTS {
        } else if t.after.Some? {
          FailKeeps(cfg, st, x, FromHost(t.after.value), t.usage, t.after, clean);
        } else {
          FailKeeps(cfg, st, x, if t.error == ChildExit then RpcChildExit else cause, t.usage, None, clean);
        }
    }
  }

  lemma BeginHolds(cfg: Config)
    requires Proper(cfg)
    ensures Inv(cfg, Begin(cfg), true)
  {
    var cp := Initial(cfg.def);
    InitialSound(cfg.def);
    var st := State(cp, [Snapshot(cp)], None, false, map[], 0, Stopped(ExitFailed));
    assert st.log[..0] == [];
    BookAppend([], Snapshot(cp));
    LatestAppend([], Snapshot(cp));
    AuditAppend(cfg.def, [], Snapshot(cp));
    assert [] + [Snapshot(cp)] == st.log;
    assert BookOf([]) == Book(map[], {}, {}, true);
    assert BookOf(st.log).ok;
    assert Spent([]) == 0;
    assert Spent(st.log) == 0;
    EnterHeadKeeps(cfg, st, true);
  }

  /** Recovery of any cut: the invariant holds again, from the log alone. */
  lemma ResumeHolds(cfg: Config, st: State, keep: nat)
    requires Inv(cfg, st, false)
    ensures Inv(cfg, Resume(cfg, Cut(st.log, keep), st.minted), false)
  {
    hide EnterHead, StartsUnderCap;
    var p := Cut(st.log, keep);
    var n := |p|;
    assert p == st.log[..n] && n > 0;
    CutKeepsOk(st.log, n);
    FirstSnapshotFound(p);
    SnapshotIsLogged(p);
    var cp := LatestSnapshot(p).value;
    ReconciliationSettles(p);
    var whole := p + Reconciliation(p, cp);
    var next := State(cp.(active := None), whole, None, false, NextVisitIndexes(whole), st.minted, Stopped(ExitFailed));
    forall i | 0 <= i < |whole| && whole[i].Snapshot?
      ensures Sound(cfg.def, whole[i].checkpoint)
    {
      if i < n {
        assert whole[i] == st.log[i];
      }
    }
    EnterHeadKeeps(cfg, next, false);
  }

  lemma {:induction false} FirstSnapshotFound(log: seq<Record>)
    requires log != [] && log[0].Snapshot?
    ensures LatestSnapshot(log).Some?
    decreases |log|
  {
    if !log[|log| - 1].Snapshot? {
      FirstSnapshotFound(log[..|log| - 1]);
    }
  }

  lemma {:induction false} SnapshotIsLogged(log: seq<Record>)
    requires LatestSnapshot(log).Some?
    ensures exists i :: 0 <= i < |log| && log[i] == Snapshot(LatestSnapshot(log).value)
    decreases |log|
  {
    if !log[|log| - 1].Snapshot? {
      SnapshotIsLogged(log[..|log| - 1]);
    }
  }

  lemma StepKeeps(cfg: Config, st: State, answer: Answer, clean: bool)
    requires Inv(cfg, st, clean) && (clean ==> answer.Reply?)
    ensures Inv(cfg, Step(cfg, st, answer), clean)
  {
    match answer
    case Crash(keep) => ResumeHolds(cfg, st, keep);
    case Reply(spawned, shared, turn) =>
      match st.phase
      case Spawning(v) => OnSpawnKeeps(cfg, st, v, spawned, shared, clean);
      case Prompting(x) => OnTurnKeeps(cfg, st, x, turn, clean);
      case Stopped(_) =>
  }

  /** Every history, with crashes at any point, keeps the invariant. */
  lemma {:induction false} RunKeeps(cfg: Config, tape: seq<Answer>)
    requires Proper(cfg)
    ensures Inv(cfg, Run(cfg, tape), false)
    ensures CrashFree(tape) ==> Inv(cfg, Run(cfg, tape), true)
    decreases |tape|
  {
    if tape == [] {
      BeginHolds(cfg);
    } else {
      var n := |tape| - 1;
      RunKeeps(cfg, tape[..n]);
      StepKeeps(cfg, Run(cfg, tape[..n]), tape[n], false);
      if CrashFree(tape) {
        StepKeeps(cfg, Run(cfg, tape[..n]), tape[n], true);
      }
    }
  }
}
