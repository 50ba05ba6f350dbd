/**
 * The protocol's promises over whole runs. The first part is about crash-free
 * runs, the second about every history, the third about recovery itself.
 */
module Guarantees {
  import opened Wrappers
  import opened Machine
  import opened Protocol
  import opened Ledger
  import opened Trail
  import opened Invariants

  // ---------------------------------------------------------------- crash-free runs

  /** The persisted snapshots are the fold of the persisted records, and so is the live checkpoint. */
  lemma LogRefinesReducers(cfg: Config, tape: seq<Answer>)
    requires Proper(cfg) && CrashFree(tape)
    ensures var st := Run(cfg, tape);
            && AuditOf(cfg.def, st.log).ok && AuditOf(cfg.def, st.log).cp == st.cp
            && forall j :: 0 <= j < |st.log| && st.log[j].Snapshot? ==>
                 st.log[j].checkpoint == AuditOf(cfg.def, st.log[..j]).cp
  {
    hide Run;
    RunKeeps(cfg, tape);
    var st := Run(cfg, tape);
    forall j | 0 <= j < |st.log| && st.log[j].Snapshot?
      ensures st.log[j].checkpoint == AuditOf(cfg.def, st.log[..j]).cp
    {
      SnapshotIsReplay(cfg.def, st.log, j);
    }
  }

  /** Accepted transitions form one unbroken path. */
  lemma TransitionsAreContiguous(cfg: Config, tape: seq<Answer>, i: nat, j: nat)
    requires Proper(cfg) && CrashFree(tape)
    requires AcceptedAt(Run(cfg, tape).log, j) && LastAcceptedBefore(Run(cfg, tape).log, i, j)
    ensures Run(cfg, tape).log[j].t.from == Run(cfg, tape).log[i].t.to
  {
    hide Run;
    LogRefinesReducers(cfg, tape);
    Contiguous(cfg.def, Run(cfg, tape).log, i, j);
  }

  /** A start has its terminal, exactly one, before the next start. */
  lemma SessionsDoNotOverlap(cfg: Config, tape: seq<Answer>, i: nat, j: nat)
    requires Proper(cfg) && CrashFree(tape)
    requires i < j < |Run(cfg, tape).log|
    requires Run(cfg, tape).log[i].Started? && Run(cfg, tape).log[j].Started?
    ensures var log := Run(cfg, tape).log;
            && (exists k :: i < k < j && log[k].Terminal? && Closes(log[i], log[k]))
            && SessionOf(log[i].ident).Some? && Terminals(log, SessionOf(log[i].ident).value) == 1
  {
    hide Run;
    RunKeeps(cfg, tape);
    LogRefinesReducers(cfg, tape);
    var log := Run(cfg, tape).log;
    StartsDoNotOverlap(cfg.def, log, i, j);
    StartIsFiled(log, i);
    var k :| i < k < j && log[k].Terminal? && Closes(log[i], log[k]);
    var id := SessionOf(log[i].ident).value;
    BookCounts(log, id);
    TerminalCounted(log, k, id);
  }

  /** A start without a terminal is the last one, and the checkpoint names its session as live. */
  lemma OpenStartIsLive(cfg: Config, tape: seq<Answer>, i: nat)
    requires Proper(cfg) && CrashFree(tape)
    requires i < |Run(cfg, tape).log| && Run(cfg, tape).log[i].Started?
    requires var log := Run(cfg, tape).log;
             forall k :: i < k < |log| ==> !(log[k].Terminal? && Closes(log[i], log[k]))
    ensures var st := Run(cfg, tape);
            && NamedBy(st.cp, st.log[i])
            && forall k :: i < k < |st.log| ==> !st.log[k].Started? && !st.log[k].Terminal?
  {
    hide Run;
    LogRefinesReducers(cfg, tape);
    var st := Run(cfg, tape);
    OpenSince(cfg.def, st.log, i);
    OpenIsActive(cfg.def, st.log);
  }

  lemma {:induction false} TerminalCounted(log: seq<Record>, k: nat, id: nat)
    requires k < |log| && log[k].Terminal? && SessionOf(log[k].ident) == Some(id)
    ensures Terminals(log, id) >= 1
    decreases |log|
  {
    if k < |log| - 1 {
      TerminalCounted(log[..|log| - 1], k, id);
    }
  }

  /** With gated ending, every accepted role end directly follows the request it names. */
  lemma EndsAreRequested(cfg: Config, tape: seq<Answer>, j: nat)
    requires Proper(cfg) && CrashFree(tape) && cfg.def.endRequestRoles.Some?
    requires AcceptedAt(Run(cfg, tape).log, j) && Run(cfg, tape).log[j].t.event == End(ByRole)
    ensures var log := Run(cfg, tape).log; exists i :: RequestBefore(cfg.def, log, i, j)
  {
    hide Run;
    LogRefinesReducers(cfg, tape);
    EndFollowsRequest(cfg.def, Run(cfg, tape).log, j);
  }

  /** An accepted end is the last transition there is, so no request is used twice. */
  lemma EndIsLast(cfg: Config, tape: seq<Answer>, i: nat, j: nat)
    requires Proper(cfg) && CrashFree(tape)
    requires AcceptedAt(Run(cfg, tape).log, i) && Run(cfg, tape).log[i].t.event.End?
    requires i < j < |Run(cfg, tape).log|
    ensures !AcceptedAt(Run(cfg, tape).log, j) && !Run(cfg, tape).log[j].Started?
  {
    hide Run;
    LogRefinesReducers(cfg, tape);
    var log := Run(cfg, tape).log;
    AuditAt(cfg.def, log, i);
    AuditCut(cfg.def, log, j);
    AuditAt(cfg.def, log, j);
    StaysDone(cfg.def, log[..j], i);
  }

  lemma {:induction false} StaysDone(def: Definition, log: seq<Record>, i: nat)
    requires AuditOf(def, log).ok && AcceptedAt(log, i) && log[i].t.event.End?
    ensures AuditOf(def, log).cp.current == Done
    decreases |log|
  {
    var n := |log| - 1;
    AuditCut(def, log, n);
    if i < n {
      StaysDone(def, log[..n], i);
    }
  }

  /** `visit_count` never passes its cap and counts the accepted dispatches of every plain name. */
  lemma VisitCountsAreDispatches(cfg: Config, tape: seq<Answer>, w: Role)
    requires Proper(cfg) && CrashFree(tape) && w in cfg.def.workers
    ensures var st := Run(cfg, tape);
            && Count(st.cp.visits, w) == (if PlainName(w) then Dispatches(cfg.def, st.log, w) else 0)
            && Count(st.cp.visits, w) <= Count(cfg.def.maxVisits, w)
  {
    hide Run;
    RunKeeps(cfg, tape);
    CountIsDispatches(cfg.def, Run(cfg, tape).log, w);
  }

  /** A pending end request is always the work of the last accepted transition. */
  lemma RequestIsFresh(cfg: Config, tape: seq<Answer>)
    requires Proper(cfg) && CrashFree(tape) && Run(cfg, tape).cp.endRequest.Some?
    ensures var st := Run(cfg, tape);
            && st.cp.current == At(cfg.def.orchestrator)
            && IsRequest(cfg.def, AuditOf(cfg.def, st.log).last, st.cp.endRequest.value.role)
  {
    hide Run;
    RunKeeps(cfg, tape);
  }

  // ---------------------------------------------------------------- the run cost cap

  lemma {:induction false} UnderCapAt(cfg: Config, log: seq<Record>, i: nat)
    requires StartsUnderCap(cfg, log) && i < |log| && log[i].Started?
    ensures !CapReached(cfg, log[..i], 0)
    decreases |log|
  {
    var n := |log| - 1;
    if i < n {
      UnderCapAt(cfg, log[..n], i);
      assert log[..n][..i] == log[..i];
    }
  }

  ghost predicate NeverStartsPastCap(cfg: Config)
    requires WellFormed(cfg.def)
  {
    forall tape, i {:trigger Run(cfg, tape).log[i]} ::
      CrashFree(tape) && 0 <= i < |Run(cfg, tape).log| && Run(cfg, tape).log[i].Started? ==>
      !CapReached(cfg, Run(cfg, tape).log[..i], 0)
  }

  /**
   * No session of a crash-free run starts once the persisted cost has reached
   * the cap, exactly when the cap is not zero: a zero cap still lets the first
   * orchestrator session start.
   */
  lemma CapHoldsIffPositive(cfg: Config)
    requires Proper(cfg)
    ensures NeverStartsPastCap(cfg) <==> PositiveCap(cfg)
  {
    if PositiveCap(cfg) {
      forall tape, i | CrashFree(tape) && 0 <= i < |Run(cfg, tape).log| && Run(cfg, tape).log[i].Started?
        ensures !CapReached(cfg, Run(cfg, tape).log[..i], 0)
      {
        RunKeeps(cfg, tape);
        UnderCapAt(cfg, Run(cfg, tape).log, i);
      }
    } else {
      var quiet := Turn(None, NoError, None, None, 0, [], false, false, false, GuardPassed, false, false);
      var tape := [Reply(true, None, quiet)];
      assert tape[..0] == [];
      assert Run(cfg, []) == Begin(cfg);
      assert Run(cfg, tape) == Step(cfg, Begin(cfg), tape[0]);
      assert Run(cfg, tape).log[1].Started?;
      assert CapReached(cfg, Run(cfg, tape).log[..1], 0);
    }
  }

  /** A run that is done ended by an accepted end; with a deferred close, by the cost cap's own. */
  lemma DoneMeansEnded(cfg: Config, tape: seq<Answer>)
    requires Proper(cfg) && CrashFree(tape) && Run(cfg, tape).phase == Stopped(ExitDone)
    ensures var st := Run(cfg, tape);
            var last := AuditOf(cfg.def, st.log).last;
            && st.cp.current == Done && st.cp.endRequest.None?
            && last.Some? && last.value.TransitionAccepted? && last.value.event.End?
            && last.value.from == At(cfg.def.orchestrator)
            && (st.forced ==> last.value.event == End(ByRunCostCap))
  {
    hide Run;
    RunKeeps(cfg, tape);
    EndsComeFromHub(cfg.def, Run(cfg, tape).log);
  }

  lemma {:induction false} EndsComeFromHub(def: Definition, log: seq<Record>)
    requires AuditOf(def, log).ok
    ensures var last := AuditOf(def, log).last;
            last.Some? ==>
              && last.value.TransitionAccepted?
              && (last.value.event.End? ==> last.value.from == At(def.orchestrator))
    decreases |log|
  {
    if log != [] {
      AuditCut(def, log, |log| - 1);
      EndsComeFromHub(def, log[..|log| - 1]);
    }
  }

  /**
   * The orchestrator's captured event at the cap is superseded: its session
   * ends, then the one synthesized end closes the run, unless delegation failed.
   */
  lemma CapClosesTheRun(cfg: Config, tape: seq<Answer>, t: Turn, shared: Option<string>)
    requires Proper(cfg) && CrashFree(tape)
    requires Run(cfg, tape).phase.Prompting?
    requires Run(cfg, tape).phase.live.visit.role == cfg.def.orchestrator
    requires ValidateEmission(cfg, cfg.def.orchestrator, t.captures).Emitted?
    requires t.before != Some(UserAborted) && t.after != Some(UserAborted)
    requires t.error != OtherError || t.after.Some?
    requires CapReached(cfg, Run(cfg, tape).log, t.usage) && t.settled != Some(DelegationFailed)
    ensures var st := Run(cfg, tape);
            var next := Step(cfg, st, Reply(true, shared, t));
            && next.phase == Stopped(ExitDone) && |next.log| == |st.log| + 4
            && next.log[|st.log|].Terminal? && next.log[|st.log|].ending == Ended
            && next.log[|st.log|].cost == t.usage
            && AcceptedAt(next.log, |st.log| + 2)
            && next.log[|st.log| + 2].t.event == End(ByRunCostCap)
  {
    hide Run, BaseOf, LiveOf, AuditOf;
    RunKeeps(cfg, tape);
    var st := Run(cfg, tape);
    var x := st.phase.live;
    CloseKeeps(cfg, st, x, Ended, t.usage, true);
    ForceEndKeeps(cfg, Close(st, x, Ended, t.usage).value, true);
  }

  // ---------------------------------------------------------------- every history

  /**
   * With crashes at any point, the loop's own invariant errors never arise: the
   * head guards, the lifecycle identity checks and the synthesized reductions.
   */
  lemma InvariantErrorsUnreachable(cfg: Config, tape: seq<Answer>)
    requires Proper(cfg)
    ensures var phase := Run(cfg, tape).phase;
            phase.Stopped? && phase.exit.Thrown? ==>
              phase.exit.fault == PromptThrew || phase.exit.fault == SpawnThrew
    ensures Run(cfg, tape).phase == Stopped(ExitDone) <==> Run(cfg, tape).cp.current == Done
  {
    hide Run;
    RunKeeps(cfg, tape);
  }

  /** Sessions start once and end at most once, whatever crashes cut away. */
  lemma SessionsEndAtMostOnce(cfg: Config, tape: seq<Answer>, id: nat)
    requires Proper(cfg)
    ensures var st := Run(cfg, tape);
            && Terminals(st.log, id) <= Starts(st.log, id) <= 1
            && (EverNamed(st.log, id) ==> Terminals(st.log, id) == 1 || Named(st.cp, id))
  {
    hide Run;
    RunKeeps(cfg, tape);
    var st := Run(cfg, tape);
    BookCounts(st.log, id);
    SettledOfOk(st.log);
  }

  // ---------------------------------------------------------------- recovery

  /**
   * A crash at any record boundary of any history: recovery resumes from the
   * latest persisted snapshot without its session, appends at most two records,
   * and leaves every session a snapshot ever named with exactly one terminal.
   */
  lemma RecoveryRestores(cfg: Config, tape: seq<Answer>, keep: nat)
    requires Proper(cfg)
    ensures var st := Run(cfg, tape);
            var cut := Cut(st.log, keep);
            var next := Step(cfg, st, Crash(keep));
            && LatestSnapshot(cut).Some?
            && next.cp == LatestSnapshot(cut).value.(active := None)
            && cut <= next.log && |next.log| <= |cut| + 2
            && (forall id :: EverNamed(next.log, id) ==> Terminals(next.log, id) == 1)
            && (next.phase.Spawning? <==> next.cp.current != Done)
  {
    hide Run;
    RunKeeps(cfg, tape);
    var st := Run(cfg, tape);
    var cut := Cut(st.log, keep);
    CutIsSound(cfg, st, keep);
    ReconciliationSettles(cut);
    var cp := LatestSnapshot(cut).value;
    var whole := cut + Reconciliation(cut, cp);
    var next := Step(cfg, st, Crash(keep));
    assert next.log == whole;
    forall id | EverNamed(next.log, id)
      ensures Terminals(next.log, id) == 1
    {
      BookCounts(whole, id);
    }
  }

  lemma CutIsSound(cfg: Config, st: State, keep: nat)
    requires Inv(cfg, st, false)
    ensures BookOf(Cut(st.log, keep)).ok && LatestSnapshot(Cut(st.log, keep)).Some?
  {
    var p := Cut(st.log, keep);
    assert p == st.log[..|p|] && |p| > 0;
    CutKeepsOk(st.log, |p|);
    FirstSnapshotFound(p);
  }

  /** Recovery appends the reconciliation and nothing else. */
  lemma RecoveryWrites(cfg: Config, st: State, keep: nat)
    requires Inv(cfg, st, false)
    ensures var cut := Cut(st.log, keep);
            && LatestSnapshot(cut).Some?
            && Step(cfg, st, Crash(keep)).log == Recovered(cut)
            && Step(cfg, st, Crash(keep)).minted == st.minted
  {
    CutIsSound(cfg, st, keep);
    ReconciliationSettles(Cut(st.log, keep));
    hide Reconciliation, LatestSnapshot, NextVisitIndexes;
  }

  function Recovered(log: seq<Record>): seq<Record>
    requires LatestSnapshot(log).Some?
  {
    log + Reconciliation(log, LatestSnapshot(log).value)
  }

  /** The terminal of the session a crash cut short: what its start says, failed as lost, at no cost. */
  ghost predicate Lost(log: seq<Record>, cp: Checkpoint, a: Active, r: Record) {
    && r.Terminal? && r.ending == Failed(LostInCrash) && r.cost == 0 && r.role == a.role && r.at == cp.current
    && exists i :: 0 <= i < |log| && Closes(log[i], r) && SessionOf(log[i].ident) == Some(a.id)
  }

  /** What a recovery adds to the records it finds. */
  ghost predicate Reconciled(log: seq<Record>, whole: seq<Record>)
    requires LatestSnapshot(log).Some?
  {
    var cp := LatestSnapshot(log).value;
    var cleared := Snapshot(cp.(active := None));
    if cp.active.None? then whole == log
    else if Terminals(log, cp.active.value.id) > 0 then whole == log + [cleared]
    else |whole| == |log| + 2 && whole == log + [whole[|log|], cleared] && Lost(log, cp, cp.active.value, whole[|log|])
  }

  lemma RecoveredIsReconciled(log: seq<Record>)
    requires BookOf(log).ok && LatestSnapshot(log).Some?
    ensures Reconciled(log, Recovered(log)) && Spent(Recovered(log)) == Spent(log)
  {
    var cp := LatestSnapshot(log).value;
    assert log + [] == log;
    if cp.active.Some? {
      var a := cp.active.value;
      SettledOfOk(log);
      ScanFindsStart(log, a);
      ScanFindsTerminal(log, a);
      StartsFiled(log);
      BookCounts(log, a.id);
      var i := LatestStart(log, a).value;
      var more := Reconciliation(log, cp);
      if HasTerminal(log, i, a) {
        SpentOfPair(log, more[0], more[0]);
      } else {
        SpentOfPair(log, more[0], more[1]);
        assert Closes(log[i], more[0]) && SessionOf(log[i].ident) == Some(a.id);
      }
    }
  }

  /**
   * What recovery records, after any history and cut: nothing if no session was
   * live; else the cleared checkpoint, and before it, if the session had not
   * ended, the terminal that says it was lost in the crash.
   */
  lemma RecoveryRecordsLoss(cfg: Config, tape: seq<Answer>, keep: nat)
    requires Proper(cfg)
    ensures var st := Run(cfg, tape);
            var cut, next := Cut(st.log, keep), Step(cfg, st, Crash(keep));
            && LatestSnapshot(cut).Some? && Reconciled(cut, next.log)
            && Spent(next.log) == Spent(cut)
  {
    hide Run, Reconciliation, Reconciled, Resume;
    RunKeeps(cfg, tape);
    var st := Run(cfg, tape);
    CutIsSound(cfg, st, keep);
    RecoveryWrites(cfg, st, keep);
    RecoveredIsReconciled(Cut(st.log, keep));
  }

  /** Any prefix of what recovery appends recovers to the same log. */
  lemma PrefixRecovers(log: seq<Record>, k: nat)
    requires BookOf(log).ok && LatestSnapshot(log).Some? && k <= |Recovered(log)| - |log|
    ensures var part := Recovered(log)[..|log| + k];
            LatestSnapshot(part).Some? && Recovered(part) == Recovered(log)
  {
    var cp := LatestSnapshot(log).value;
    var extra := Reconciliation(log, cp);
    var part := Recovered(log)[..|log| + k];
    assert part == log + extra[..k];
    ReconciliationSettles(log);
    if k == 0 {
      assert part == log;
    } else if k == |extra| {
      assert part == log + extra;
      assert part + [] == part;
    } else {
      PartialRecovery(log);
      assert extra[..k] == [extra[0]];
    }
  }

  lemma SameLogSameResume(cfg: Config, a: seq<Record>, b: seq<Record>, minted: nat)
    requires WellFormed(cfg.def) && LatestSnapshot(a).Some? && LatestSnapshot(b).Some?
    requires Recovered(a) == Recovered(b) && LatestSnapshot(Recovered(a)).Some?
    ensures Resume(cfg, a, minted) == Resume(cfg, b, minted)
  {
    hide Reconciliation, LatestSnapshot, EnterHead, NextVisitIndexes;
  }

  /**
   * A further crash inside recovery is harmless: recovering from any prefix of
   * its appends gives back the same log and the same state.
   */
  lemma RecoveryIsAtomic(cfg: Config, tape: seq<Answer>, keep: nat, again: nat)
    requires Proper(cfg)
    requires again >= |Cut(Run(cfg, tape).log, keep)|
    ensures var once := Step(cfg, Run(cfg, tape), Crash(keep));
            Step(cfg, once, Crash(again)) == once
  {
    hide Run, EnterHead, Reconciliation, LatestSnapshot, Resume;
    RunKeeps(cfg, tape);
    var st := Run(cfg, tape);
    var cut := Cut(st.log, keep);
    CutIsSound(cfg, st, keep);
    RecoveryWrites(cfg, st, keep);
    ReconciliationSettles(cut);
    var once := Step(cfg, st, Crash(keep));
    var part := Cut(once.log, again);
    assert part == Recovered(cut)[..|part|];
    PrefixRecovers(cut, |part| - |cut|);
    SameLogSameResume(cfg, cut, part, st.minted);
  }

  /** The terminal alone was written: the second recovery adds only the snapshot. */
  lemma PartialRecovery(log: seq<Record>)
    requires BookOf(log).ok && LatestSnapshot(log).Some?
    requires |Reconciliation(log, LatestSnapshot(log).value)| == 2
    ensures var cp := LatestSnapshot(log).value;
            var extra := Reconciliation(log, cp);
            var part := log + [extra[0]];
            && LatestSnapshot(part) == Some(cp)
            && Reconciliation(part, cp) == [extra[1]]
            && part + [extra[1]] == log + extra
  {
    var cp := LatestSnapshot(log).value;
    var a := cp.active.value;
    var extra := Reconciliation(log, cp);
    var part := log + [extra[0]];
    SettledOfOk(log);
    LatestAppend(log, extra[0]);
    ScanFindsStart(log, a);
    LatestStartIsStart(log, a);
    LatestStartIsStart(part, a);
    var i := LatestStart(log, a).value;
    assert !StartMatches(part[|log|], a);
    assert LatestStart(part, a) == Some(i) by {
      assert part[..|part| - 1] == log;
    }
    assert TerminalMatches(part[|log|], part[i], a);
    assert HasTerminal(part, i, a);
  }
}
