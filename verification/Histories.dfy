/**
 * What every record of every history answers to, crashes anywhere: a dispatch
 * finds the cost cap not reached, an end request was made by an authorised
 * worker, a role's end answers one. A process starts at the cap at most once.
 */
module Histories {
  import opened Wrappers
  import opened Machine
  import opened Protocol
  import opened Ledger
  import opened Trail
  import opened Invariants

  predicate Dispatch(def: Definition, r: Record) {
    r.Transition? && r.t.TransitionAccepted? && r.t.from == At(def.orchestrator) && r.t.to.At?
  }

  predicate RoleEnd(r: Record) {
    r.Transition? && r.t.TransitionAccepted? && r.t.event == End(ByRole)
  }

  /** The record is an authorised worker's accepted request to end. */
  predicate Requests(def: Definition, r: Record, requester: Role) {
    r.Transition? && IsRequest(def, Some(r.t), requester)
  }

  /** The log's latest snapshot holds the role's end request. */
  predicate Pending(log: seq<Record>, requester: Role) {
    var cp := LatestSnapshot(log);
    cp.Some? && cp.value.endRequest.Some? && cp.value.endRequest.value.role == requester
  }

  /** The last two records are an accepted transition from the role and its snapshot. */
  predicate AfterMove(log: seq<Record>, role: Role) {
    var n := |log|;
    && n >= 2 && log[n - 1].Snapshot?
    && log[n - 2].Transition? && log[n - 2].t.TransitionAccepted? && log[n - 2].t.from == At(role)
  }

  /** What a record asks of the records before it. */
  predicate Lawful(cfg: Config, log: seq<Record>, r: Record) {
    && (Dispatch(cfg.def, r) ==> !CapReached(cfg, log, 0))
    && (RoleEnd(r) && cfg.def.endRequestRoles.Some? ==>
          r.t.endRequestedBy.Some? && Pending(log, r.t.endRequestedBy.value))
    && (r.Snapshot? && r.checkpoint.endRequest.Some? ==>
          var requester := r.checkpoint.endRequest.value.role;
          Pending(log, requester) || (log != [] && Requests(cfg.def, log[|log| - 1], requester)))
    && (r.Terminal? && r.ending == Ended ==>
          AfterMove(log, r.role) || (r.role == cfg.def.orchestrator && CapReached(cfg, log, r.cost)))
  }

  ghost predicate AllLawful(cfg: Config, log: seq<Record>) {
    forall j :: 0 <= j < |log| ==> Lawful(cfg, log[..j], log[j])
  }

  lemma LawfulAppend(cfg: Config, log: seq<Record>, r: Record)
    requires AllLawful(cfg, log) && Lawful(cfg, log, r)
    ensures AllLawful(cfg, log + [r])
  {
    hide Lawful;
    forall j | 0 <= j < |log + [r]|
      ensures Lawful(cfg, (log + [r])[..j], (log + [r])[j])
    {
      assert (log + [r])[..j] == if j < |log| then log[..j] else log;
    }
  }

  lemma LawfulCut(cfg: Config, log: seq<Record>, n: nat)
    requires AllLawful(cfg, log) && n <= |log|
    ensures AllLawful(cfg, log[..n])
  {
    hide Lawful;
    forall j | 0 <= j < n
      ensures log[..n][..j] == log[..j]
    {}
  }

  // ---------------------------------------------------------------- one turn

  /** The log is lawful and the checkpoint is its latest. */
  ghost predicate Kept(cfg: Config, st: State) {
    AllLawful(cfg, st.log) && LatestSnapshot(st.log) == Some(st.cp)
  }

  /** `next` extends the log of `st` without a start; a role's end comes first if at all. */
  ghost predicate Quiet(st: State, next: State) {
    && st.log <= next.log
    && forall i :: |st.log| <= i < |next.log| ==> !next.log[i].Started? && (RoleEnd(next.log[i]) ==> i == |st.log|)
  }

  /** Nor does it hold a role's end. */
  ghost predicate Plain(st: State, next: State) {
    st.log <= next.log && forall i :: |st.log| <= i < |next.log| ==> !next.log[i].Started? && !RoleEnd(next.log[i])
  }

  lemma QuietChain(st: State, mid: State, next: State)
    requires Quiet(st, mid) && Plain(mid, next)
    ensures Quiet(st, next)
    ensures Plain(st, mid) ==> Plain(st, next)
  {}

  /** A step that starts nothing, and another session is due only below the cap. */
  ghost predicate Turned(cfg: Config, st: State, next: State) {
    Kept(cfg, next) && Plain(st, next) && (next.phase.Spawning? ==> !CapReached(cfg, next.log, 0))
  }

  /** The same of a step that may also accept a role's end. */
  ghost predicate Answered(cfg: Config, st: State, next: State) {
    Kept(cfg, next) && Quiet(st, next) && (next.phase.Spawning? ==> !CapReached(cfg, next.log, 0))
  }

  /** A record with the snapshot that follows it. */
  lemma PairKept(cfg: Config, st: State, r: Record, cp: Checkpoint)
    requires Kept(cfg, st) && !r.Snapshot? && Lawful(cfg, st.log, r) && Lawful(cfg, st.log + [r], Snapshot(cp))
    ensures Kept(cfg, Write(st, [r, Snapshot(cp)]).(cp := cp))
  {
    hide Lawful;
    LawfulAppend(cfg, st.log, r);
    LawfulAppend(cfg, st.log + [r], Snapshot(cp));
    LatestAppend(st.log + [r], Snapshot(cp));
    assert st.log + [r] + [Snapshot(cp)] == st.log + [r, Snapshot(cp)];
  }

  lemma SameRequestLawful(cfg: Config, st: State, r: Record, cp: Checkpoint)
    requires Kept(cfg, st) && !r.Snapshot? && (cp.endRequest.Some? ==> cp.endRequest == st.cp.endRequest)
    ensures Lawful(cfg, st.log + [r], Snapshot(cp))
  {
    LatestAppend(st.log, r);
  }

  /** A session may end as such after its move, or at the cap. */
  predicate MayEnd(cfg: Config, st: State, role: Role, cost: nat) {
    AfterMove(st.log, role) || (role == cfg.def.orchestrator && CapReached(cfg, st.log, cost))
  }

  lemma CloseKept(cfg: Config, st: State, x: Live, ending: Ending, cost: nat)
    requires Kept(cfg, st) && Close(st, x, ending, cost).Some?
    requires ending == Ended ==> MayEnd(cfg, st, x.visit.role, cost)
    ensures var closed := Close(st, x, ending, cost).value;
            && Kept(cfg, closed) && Plain(st, closed)
            && Spent(closed.log) == Spent(st.log) + cost && closed.forced == st.forced
  {
    var r := Terminal(ending, x.visit.role, x.visit.index, st.cp.current, x.session.Identity(), x.parent, cost);
    var cp := Close(st, x, ending, cost).value.cp;
    SameRequestLawful(cfg, st, r, cp);
    hide AllLawful, LatestSnapshot;
    PairKept(cfg, st, r, cp);
    SpentOfPair(st.log, r, Snapshot(cp));
  }

  /** An accepted event, unless it dispatches at the cap, keeps the log lawful. */
  lemma AdvanceKept(cfg: Config, st: State, ev: MachineEvent, who: Place, file: File)
    requires Kept(cfg, st) && WellFormed(cfg.def) && Reduce(st.cp, ev, cfg.def, who, file).Accepted?
    requires CapReached(cfg, st.log, 0) && ev.Handoff? ==> st.cp.current != At(cfg.def.orchestrator)
    ensures var r := Reduce(st.cp, ev, cfg.def, who, file);
            var next := Advance(st, r.checkpoint, r.record);
            && Kept(cfg, next) && Quiet(st, next) && (ev == End(ByRole) || Plain(st, next))
            && Spent(next.log) == Spent(st.log)
  {
    var r := Reduce(st.cp, ev, cfg.def, who, file);
    AcceptedLawful(cfg, st, ev, who, file);
    hide Lawful, Reduce, AllLawful, LatestSnapshot;
    PairKept(cfg, st, Transition(r.record), r.checkpoint);
    SpentOfPair(st.log, Transition(r.record), Snapshot(r.checkpoint));
  }

  lemma AcceptedLawful(cfg: Config, st: State, ev: MachineEvent, who: Place, file: File)
    requires Kept(cfg, st) && WellFormed(cfg.def) && Reduce(st.cp, ev, cfg.def, who, file).Accepted?
    requires CapReached(cfg, st.log, 0) && ev.Handoff? ==> st.cp.current != At(cfg.def.orchestrator)
    ensures var r := Reduce(st.cp, ev, cfg.def, who, file);
            && Lawful(cfg, st.log, Transition(r.record)) && r.record.event == ev
            && Lawful(cfg, st.log + [Transition(r.record)], Snapshot(r.checkpoint))
  {
    var r := Reduce(st.cp, ev, cfg.def, who, file);
    LatestAppend(st.log, Transition(r.record));
    hide AllLawful, LatestSnapshot, CapReached;
  }

  lemma ForceEndTurned(cfg: Config, st: State)
    requires Kept(cfg, st) && WellFormed(cfg.def)
    ensures Turned(cfg, st, ForceEnd(cfg, st))
  {
    hide AllLawful, LatestSnapshot, Reduce, CapReached;
    var r := Reduce(st.cp, End(ByRunCostCap), cfg.def, At(cfg.def.orchestrator), CAP_END_FILE);
    if r.Accepted? {
      AdvanceKept(cfg, st, End(ByRunCostCap), At(cfg.def.orchestrator), CAP_END_FILE);
    } else if r.Rejected? {
      RejectedKept(cfg, st, End(ByRunCostCap), At(cfg.def.orchestrator), CAP_END_FILE);
      SameRequestLawful(cfg, st, Transition(r.record), r.checkpoint);
      PairKept(cfg, st, Transition(r.record), r.checkpoint);
    }
  }

  lemma RejectedKept(cfg: Config, st: State, ev: MachineEvent, who: Place, file: File)
    requires Kept(cfg, st) && WellFormed(cfg.def) && Reduce(st.cp, ev, cfg.def, who, file).Rejected?
    ensures var r := Reduce(st.cp, ev, cfg.def, who, file);
            && r.checkpoint.endRequest == st.cp.endRequest && r.record.TransitionRejected?
            && Kept(cfg, Write(st, [Transition(r.record)]))
  {
    var r := Reduce(st.cp, ev, cfg.def, who, file);
    LawfulAppend(cfg, st.log, Transition(r.record));
    LatestAppend(st.log, Transition(r.record));
    hide AllLawful, LatestSnapshot, CapReached;
  }

  /** At the loop head another visit begins below the cap only, unless the close is due. */
  lemma HeadTurned(cfg: Config, st: State)
    requires Kept(cfg, st) && WellFormed(cfg.def) && (CapReached(cfg, st.log, 0) ==> st.forced)
    ensures Turned(cfg, st, EnterHead(cfg, st))
  {
    hide AllLawful, LatestSnapshot, ForceEnd, CapReached;
    ForceEndTurned(cfg, st);
  }

  lemma SpawnTurned(cfg: Config, st: State, v: Visit)
    requires Kept(cfg, st) && WellFormed(cfg.def) && !CapReached(cfg, st.log, 0)
    ensures Turned(cfg, st, EnterSpawn(cfg, st, v))
  {
    hide AllLawful, LatestSnapshot, Reduce, EnterHead, OutOfModels;
    var ev := Handoff(cfg.def.orchestrator, false);
    var r := Reduce(st.cp, ev, cfg.def, At(v.role), UNAVAILABLE_FILE);
    if OutOfModels(cfg, v) && v.role != cfg.def.orchestrator && r.Accepted? {
      AdvanceKept(cfg, st, ev, At(v.role), UNAVAILABLE_FILE);
      var moved := Advance(st, r.checkpoint, r.record);
      HeadTurned(cfg, moved.(nextVisit := moved.nextVisit[v.role := v.index + 1]));
    }
  }

  /** A note about the next attempt. */
  lemma NoteKept(cfg: Config, st: State, r: Record)
    requires Kept(cfg, st) && (r.ModelRetry? || r.ModelFallback?)
    ensures var next := Write(st, [r]);
            Kept(cfg, next) && Plain(st, next) && Spent(next.log) == Spent(st.log)
  {
    LawfulAppend(cfg, st.log, r);
    LatestAppend(st.log, r);
    assert (st.log + [r])[..|st.log|] == st.log;
    hide AllLawful, LatestSnapshot;
  }

  lemma FailureTurned(cfg: Config, st: State, v: Visit, reason: Option<HostReason>)
    requires Kept(cfg, st) && WellFormed(cfg.def)
    ensures Turned(cfg, st, AfterFailure(cfg, st, v, reason))
  {
    hide AllLawful, LatestSnapshot, EnterSpawn, Spent;
    if !CapReached(cfg, st.log, 0) {
      var retry, fallback := v.(retry := v.retry + 1), v.(model := v.model + 1, retry := 0);
      var noted := Write(st, [ModelRetry(v.role, v.retry + 1, Retries(cfg, v))]);
      var moved := Write(st, [ModelFallback(v.role, v.model + 1)]);
      NoteKept(cfg, st, ModelRetry(v.role, v.retry + 1, Retries(cfg, v)));
      NoteKept(cfg, st, ModelFallback(v.role, v.model + 1));
      SpawnTurned(cfg, noted, retry);
      SpawnTurned(cfg, moved, fallback);
      SpawnTurned(cfg, st, fallback);
      QuietChain(st, noted, EnterSpawn(cfg, noted, retry));
      QuietChain(st, moved, EnterSpawn(cfg, moved, fallback));
      hide Quiet;
    }
  }

  lemma FailTurned(cfg: Config, st: State, x: Live, cause: Cause, cost: nat, reason: Option<HostReason>)
    requires Kept(cfg, st) && WellFormed(cfg.def)
    ensures Turned(cfg, st, Fail(cfg, st, x, cause, cost, reason))
  {
    hide AllLawful, LatestSnapshot, AfterFailure, Close, CapReached;
    if Close(st, x, Failed(cause), cost).Some? {
      CloseKept(cfg, st, x, Failed(cause), cost);
      FailureTurned(cfg, Close(st, x, Failed(cause), cost).value, x.visit, reason);
    }
  }

  lemma StopTurned(cfg: Config, st: State, x: Live, cause: Cause, cost: nat, exit: Exit)
    requires Kept(cfg, st)
    ensures Turned(cfg, st, FailAndStop(st, x, cause, cost, exit))
  {
    hide AllLawful, LatestSnapshot, Close, CapReached;
    if Close(st, x, Failed(cause), cost).Some? {
      CloseKept(cfg, st, x, Failed(cause), cost);
    }
  }

  lemma ForceCloseTurned(cfg: Config, st: State, x: Live, cost: nat)
    requires Kept(cfg, st) && WellFormed(cfg.def)
    requires x.visit.role == cfg.def.orchestrator && CapReached(cfg, st.log, cost)
    ensures Turned(cfg, st, ForceClose(cfg, st, x, cost))
  {
    hide AllLawful, LatestSnapshot, Close, CapReached, ForceEnd;
    if Close(st, x, Ended, cost).Some? {
      CloseKept(cfg, st, x, Ended, cost);
      ForceEndTurned(cfg, Close(st, x, Ended, cost).value);
    }
  }

  /** The event at hand may be committed: at the cap only a worker's, with the close due. */
  predicate MayCommit(cfg: Config, st: State, cost: nat, role: Role, ev: MachineEvent) {
    CapReached(cfg, st.log, cost) ==> role != cfg.def.orchestrator && (st.forced || ev.End?)
  }

  /** After the four writes of a commit the session's cost is on record. */
  lemma CommitKept(cfg: Config, st: State, x: Live, cost: nat, ev: MachineEvent)
    requires Kept(cfg, st) && WellFormed(cfg.def) && MayCommit(cfg, st, cost, x.visit.role, ev)
    requires Reduce(st.cp, ev, cfg.def, At(x.visit.role), x.session.SessionFile()).Accepted?
    ensures var r := Reduce(st.cp, ev, cfg.def, At(x.visit.role), x.session.SessionFile());
            var moved := Advance(st, r.checkpoint, r.record);
            var closed := Close(moved, x, Ended, cost);
            && Kept(cfg, moved) && Quiet(st, moved)
            && (closed.Some? ==>
                  && Kept(cfg, closed.value) && Quiet(st, closed.value)
                  && (CapReached(cfg, closed.value.log, 0) ==> closed.value.forced))
  {
    var r := Reduce(st.cp, ev, cfg.def, At(x.visit.role), x.session.SessionFile());
    assert st.cp.current == At(x.visit.role) && !(ev.End? && x.visit.role != cfg.def.orchestrator);
    hide AllLawful, LatestSnapshot, Close, Reduce, Spent;
    AdvanceKept(cfg, st, ev, At(x.visit.role), x.session.SessionFile());
    var moved := Advance(st, r.checkpoint, r.record);
    if Close(moved, x, Ended, cost).Some? {
      CloseKept(cfg, moved, x, Ended, cost);
      QuietChain(st, moved, Close(moved, x, Ended, cost).value);
      hide Quiet;
    }
  }

  lemma CommitTurned(cfg: Config, st: State, x: Live, cost: nat, ev: MachineEvent)
    requires Kept(cfg, st) && WellFormed(cfg.def) && MayCommit(cfg, st, cost, x.visit.role, ev)
    requires Reduce(st.cp, ev, cfg.def, At(x.visit.role), x.session.SessionFile()).Accepted?
    ensures var r := Reduce(st.cp, ev, cfg.def, At(x.visit.role), x.session.SessionFile());
            Answered(cfg, st, Commit(cfg, st, x, cost, r.checkpoint, r.record))
  {
    hide AllLawful, LatestSnapshot, Close, EnterHead, Reduce, CapReached, Advance, MayCommit, Quiet;
    CommitKept(cfg, st, x, cost, ev);
    var r := Reduce(st.cp, ev, cfg.def, At(x.visit.role), x.session.SessionFile());
    var closed := Close(Advance(st, r.checkpoint, r.record), x, Ended, cost);
    if closed.Some? {
      var head := closed.value.(nextVisit := closed.value.nextVisit[x.visit.role := x.visit.index + 1]);
      SameQuiet(st, closed.value, head);
      HeadTurned(cfg, head);
      QuietChain(st, head, EnterHead(cfg, head));
      SameQuiet(st, closed.value, Halt(closed.value, ExitDone));
    } else {
      SameQuiet(st, Advance(st, r.checkpoint, r.record), Protocol.Broken(Advance(st, r.checkpoint, r.record)));
    }
  }

  lemma SameQuiet(st: State, next: State, same: State)
    requires Quiet(st, next) && same.log == next.log
    ensures Quiet(st, same)
  {}

  lemma DecideTurned(cfg: Config, st: State, x: Live, t: Turn, ev: MachineEvent)
    requires Kept(cfg, st) && WellFormed(cfg.def) && st.phase == Prompting(x)
    requires MayCommit(cfg, st, t.usage, x.visit.role, ev)
    ensures Answered(cfg, st, Decide(cfg, st, x, t, ev))
  {
    hide AllLawful, LatestSnapshot, Reduce, Commit, FailAndStop, CapReached;
    var r := Reduce(st.cp, ev, cfg.def, At(x.visit.role), x.session.SessionFile());
    if r.Rejected? {
      RejectedKept(cfg, st, ev, At(x.visit.role), x.session.SessionFile());
    } else if r.Accepted? {
      CommitTurned(cfg, st, x, t.usage, ev);
      StopTurned(cfg, st, x, GuardCleanupUnconfirmed, t.usage, ExitFailed);
      StopTurned(cfg, st, x, FromHost(UserAborted), t.usage, ExitAborted);
      StopTurned(cfg, st, x, GuardExhausted, t.usage, ExitFailed);
    }
  }

  lemma EmissionTurned(cfg: Config, st: State, x: Live, t: Turn, ev: MachineEvent)
    requires Kept(cfg, st) && WellFormed(cfg.def) && st.phase == Prompting(x)
    ensures Answered(cfg, st, OnEmission(cfg, st, x, t, ev))
  {
    hide AllLawful, LatestSnapshot, Fail, Decide, ForceClose, CapReached;
    var breached := CapReached(cfg, st.log, t.usage);
    var hub := x.visit.role == cfg.def.orchestrator;
    var settles := breached && (hub || ev.Handoff?);
    var st1 := if settles && !hub && t.settled != Some(DelegationFailed) then st.(forced := true) else st;
    var reason := if settles then t.settled else t.after;
    if breached && hub && t.settled != Some(DelegationFailed) {
      ForceCloseTurned(cfg, st, x, t.usage);
    } else if reason.Some? {
      FailTurned(cfg, st1, x, FromHost(reason.value), t.usage, reason);
    } else if t.error == ChildExit {
      FailTurned(cfg, st1, x, RpcChildExit, t.usage, None);
    } else {
      DecideTurned(cfg, st1, x, t, ev);
    }
  }

  lemma TurnTurned(cfg: Config, st: State, x: Live, t: Turn)
    requires Kept(cfg, st) && WellFormed(cfg.def) && st.phase == Prompting(x)
    ensures Answered(cfg, st, OnTurn(cfg, st, x, t))
  {
    hide AllLawful, LatestSnapshot, Fail, FailAndStop, OnEmission, CapReached;
    StopTurned(cfg, st, x, FromHost(UserAborted), t.usage, ExitAborted);
    match ValidateEmission(cfg, x.visit.role, t.captures)
    case Emitted(ev) => EmissionTurned(cfg, st, x, t, ev);
    case Breach(cause) =>
      if t.after.Some? {
        FailTurned(cfg, st, x, FromHost(t.after.value), t.usage, t.after);
      }
      FailTurned(cfg, st, x, if t.error == ChildExit then RpcChildExit else cause, t.usage, None);
  }

  /** A spawn writes one start at most and no transition, and no further session is due. */
  lemma SpawnStep(cfg: Config, st: State, v: Visit, spawned: bool, shared: Option<string>)
    requires Kept(cfg, st) && WellFormed(cfg.def)
    ensures var next := OnSpawn(cfg, st, v, spawned, shared);
            && AllLawful(cfg, next.log) && st.log <= next.log && !next.phase.Spawning?
            && (forall i :: |st.log| < i < |next.log| ==> !next.log[i].Started?)
            && (forall i :: |st.log| <= i < |next.log| ==> !next.log[i].Transition?)
  {
    var s := Session(st.minted, shared);
    var r := if spawned then Started(v.role, v.index, st.cp.current, s.Identity(), st.parent)
      else Terminal(Failed(FallbackStartFailed), v.role, v.index, st.cp.current, Ident(None, FALLBACK_FILE), st.parent,
                    0);
    LawfulAppend(cfg, st.log, r);
    var cp := st.cp.(active := Some(Active(s.id, v.role, s.SessionFile())));
    SameRequestLawful(cfg, st, r, cp);
    hide AllLawful, LatestSnapshot, Lawful;
    PairKept(cfg, st, r, cp);
  }

  // ---------------------------------------------------------------- whole histories

  lemma ResumeLawful(cfg: Config, log: seq<Record>, minted: nat)
    requires WellFormed(cfg.def) && AllLawful(cfg, log)
    ensures AllLawful(cfg, Resume(cfg, log, minted).log)
  {
    if LatestSnapshot(log).Some? {
      var cp := LatestSnapshot(log).value;
      var more := Reconciliation(log, cp);
      var cleared := cp.(active := None);
      var st := State(cp, log, None, false, map[], minted, Stopped(ExitFailed));
      if |more| == 1 {
        LawfulAppend(cfg, log, Snapshot(cleared));
      } else if |more| == 2 {
        assert Lawful(cfg, log, more[0]);
        SameRequestLawful(cfg, st, more[0], cleared);
        PairKept(cfg, st, more[0], cleared);
      }
      assert log + [] == log;
    }
  }

  lemma {:induction false} RunLawful(cfg: Config, tape: seq<Answer>)
    requires Proper(cfg)
    ensures Kept(cfg, Run(cfg, tape))
    decreases |tape|
  {
    RunKeeps(cfg, tape);
    if tape != [] {
      var n := |tape| - 1;
      var st := Run(cfg, tape[..n]);
      RunLawful(cfg, tape[..n]);
      hide AllLawful, LatestSnapshot, BaseOf, LiveOf, OnSpawn, OnTurn, Resume;
      match tape[n]
      case Crash(keep) =>
        LawfulCut(cfg, st.log, |Cut(st.log, keep)|);
        ResumeLawful(cfg, Cut(st.log, keep), st.minted);
      case Reply(spawned, shared, turn) =>
        match st.phase
        case Spawning(v) => SpawnStep(cfg, st, v, spawned, shared);
        case Prompting(x) => TurnTurned(cfg, st, x, turn);
        case Stopped(_) =>
    }
  }

  // ---------------------------------------------------------------- the cost cap

  /** In every history a dispatch is recorded only while persisted cost is below the cap. */
  lemma DispatchesUnderCap(cfg: Config, tape: seq<Answer>, j: nat)
    requires Proper(cfg) && j < |Run(cfg, tape).log| && Dispatch(cfg.def, Run(cfg, tape).log[j])
    ensures !CapReached(cfg, Run(cfg, tape).log[..j], 0)
  {
    hide Run;
    RunLawful(cfg, tape);
    var log := Run(cfg, tape).log;
    assert Lawful(cfg, log[..j], log[j]);
  }

  /** From the record `since` on only the first start may be at the cap, and another is due only below it. */
  ghost predicate StartsOnceAtCap(cfg: Config, st: State, since: nat) {
    && since <= |st.log|
    && (forall i, j :: since <= i < j < |st.log| && st.log[i].Started? && st.log[j].Started? ==>
          !CapReached(cfg, st.log[..j], 0))
    && (st.phase.Spawning? && CapReached(cfg, st.log, 0) ==>
          forall i :: since <= i < |st.log| ==> !st.log[i].Started?)
  }

  lemma CapStep(cfg: Config, st: State, next: State, since: nat)
    requires StartsOnceAtCap(cfg, st, since) && st.log <= next.log
    requires forall i :: |st.log| <= i < |next.log| && next.log[i].Started? ==> i == |st.log| && st.phase.Spawning?
    requires next.phase.Spawning? ==>
               next == st || (!CapReached(cfg, next.log, 0) && Quiet(st, next))
    ensures StartsOnceAtCap(cfg, next, since)
  {
    hide CapReached;
    forall i, j | since <= i < j < |next.log| && next.log[i].Started? && next.log[j].Started?
      ensures !CapReached(cfg, next.log[..j], 0)
    {
      assert next.log[..j] == if j < |st.log| then st.log[..j] else st.log;
      assert i < |st.log| && st.log[i].Started?;
    }
  }

  lemma StepAtCap(cfg: Config, st: State, answer: Answer, since: nat)
    requires WellFormed(cfg.def) && Kept(cfg, st) && answer.Reply? && StartsOnceAtCap(cfg, st, since)
    ensures StartsOnceAtCap(cfg, Step(cfg, st, answer), since)
  {
    hide Kept, StartsOnceAtCap, OnSpawn, OnTurn, CapReached;
    match st.phase
    case Spawning(v) =>
      SpawnStep(cfg, st, v, answer.spawned, answer.shared);
      CapStep(cfg, st, OnSpawn(cfg, st, v, answer.spawned, answer.shared), since);
    case Prompting(x) =>
      TurnTurned(cfg, st, x, answer.turn);
      CapStep(cfg, st, OnTurn(cfg, st, x, answer.turn), since);
    case Stopped(_) =>
  }

  lemma {:induction false} ContinuationAtCap(cfg: Config, tape: seq<Answer>, rest: seq<Answer>)
    requires Proper(cfg) && CrashFree(rest)
    ensures StartsOnceAtCap(cfg, Run(cfg, tape + rest), |Run(cfg, tape).log|)
    decreases |rest|
  {
    hide Run, Kept, Step;
    if rest == [] {
      assert tape + rest == tape;
    } else {
      var n := |rest| - 1;
      var before := tape + rest[..n];
      ContinuationAtCap(cfg, tape, rest[..n]);
      assert tape + rest == before + [rest[n]];
      hide StartsOnceAtCap;
      RunMore(cfg, before, rest[n]);
      RunLawful(cfg, before);
      StepAtCap(cfg, Run(cfg, before), rest[n], |Run(cfg, tape).log|);
    }
  }

  /**
   * After any history, of the sessions a process starts until its next crash
   * only the first may find the cap reached.
   */
  lemma OneStartAtCap(cfg: Config, tape: seq<Answer>, rest: seq<Answer>, i: nat, j: nat)
    requires Proper(cfg) && CrashFree(rest)
    requires |Run(cfg, tape).log| <= i < j < |Run(cfg, tape + rest).log|
    requires Run(cfg, tape + rest).log[i].Started? && Run(cfg, tape + rest).log[j].Started?
    ensures !CapReached(cfg, Run(cfg, tape + rest).log[..j], 0)
  {
    hide Run;
    ContinuationAtCap(cfg, tape, rest);
  }

  // ---------------------------------------------------------------- end requests

  /** A pending request was made by an accepted transition of the log. */
  lemma {:induction false} PendingWasMade(cfg: Config, log: seq<Record>, requester: Role)
    requires AllLawful(cfg, log) && Pending(log, requester)
    ensures exists i :: 0 <= i < |log| && Requests(cfg.def, log[i], requester)
    decreases |log|
  {
    var n := |log| - 1;
    assert Lawful(cfg, log[..n], log[n]);
    if Pending(log[..n], requester) {
      LawfulCut(cfg, log, n);
      PendingWasMade(cfg, log[..n], requester);
      var i :| 0 <= i < n && Requests(cfg.def, log[..n][i], requester);
      assert Requests(cfg.def, log[i], requester);
    } else {
      assert Requests(cfg.def, log[n - 1], requester);
    }
  }

  /** In every history a pending end request is at the orchestrator and was made by the authorised worker it names. */
  lemma PendingIsRequested(cfg: Config, tape: seq<Answer>)
    requires Proper(cfg) && Run(cfg, tape).cp.endRequest.Some?
    ensures var st := Run(cfg, tape);
            && st.cp.current == At(cfg.def.orchestrator)
            && exists i :: 0 <= i < |st.log| && Requests(cfg.def, st.log[i], st.cp.endRequest.value.role)
  {
    hide Run;
    RunKeeps(cfg, tape);
    RunLawful(cfg, tape);
    PendingWasMade(cfg, Run(cfg, tape).log, Run(cfg, tape).cp.endRequest.value.role);
  }

  /** Under gating every role end of every history names an authorised worker with an earlier accepted request. */
  lemma EndsAnswerRequests(cfg: Config, tape: seq<Answer>, j: nat)
    requires Proper(cfg) && cfg.def.endRequestRoles.Some?
    requires j < |Run(cfg, tape).log| && RoleEnd(Run(cfg, tape).log[j])
    ensures var log := Run(cfg, tape).log;
            && log[j].t.endRequestedBy.Some?
            && exists i :: 0 <= i < j && Requests(cfg.def, log[i], log[j].t.endRequestedBy.value)
  {
    hide Run;
    RunLawful(cfg, tape);
    var log := Run(cfg, tape).log;
    assert Lawful(cfg, log[..j], log[j]);
    LawfulCut(cfg, log, j);
    PendingWasMade(cfg, log[..j], log[j].t.endRequestedBy.value);
    var i :| 0 <= i < j && Requests(cfg.def, log[..j][i], log[j].t.endRequestedBy.value);
    assert Requests(cfg.def, log[i], log[j].t.endRequestedBy.value);
  }
}
