/**
 * What one prompt comes to, told by the answer alone: which event is accepted,
 * what ends the session, and what the end guard's verdict does. Stated of every
 * prompting state any history can reach.
 */
module Verdicts {
  import opened Wrappers
  import opened Machine
  import opened Protocol
  import opened Ledger
  import opened Trail
  import opened Invariants
  import opened Guarantees
  import opened Histories

  // ---------------------------------------------------------------- the captured event

  /** The buffer holds exactly one well-formed capture, and it means `ev`. */
  predicate Captures(cfg: Config, role: Role, captures: seq<Capture>, ev: MachineEvent) {
    && |captures| == 1 && captures[0].wellFormed
    && match ev
       case End(authority) => captures[0].EndCapture? && authority == ByRole
       case Handoff(target, requestEnd) =>
         && captures[0].HandoffCapture?
         && (cfg.v2 && role != cfg.def.orchestrator ==> target == cfg.def.orchestrator)
         && (!cfg.v2 || role == cfg.def.orchestrator ==> target == captures[0].target)
         && (requestEnd <==>
               captures[0].requestEnd &&
               (cfg.v2 ==> role != cfg.def.orchestrator && MayRequestEnd(cfg.def, role)))
  }

  /** The emission check yields the event that was captured, or says what is wrong with the buffer. */
  lemma CapturesDecide(cfg: Config, role: Role, captures: seq<Capture>)
    ensures forall ev :: ValidateEmission(cfg, role, captures) == Emitted(ev) <==> Captures(cfg, role, captures, ev)
    ensures ValidateEmission(cfg, role, captures) == Breach(NoEmission) <==> |captures| == 0
    ensures ValidateEmission(cfg, role, captures) == Breach(ExtraEmission) <==> |captures| > 1
    ensures ValidateEmission(cfg, role, captures) == Breach(SchemaInvalid) <==>
            |captures| == 1 && !captures[0].wellFormed
    ensures ValidateEmission(cfg, role, captures).Emitted? ==> exists ev :: Captures(cfg, role, captures, ev)
  {
    var r := ValidateEmission(cfg, role, captures);
    assert r.Emitted? ==> Captures(cfg, role, captures, r.ev);
  }

  /** The machine allows the role's event at the checkpoint. */
  predicate Allows(def: Definition, cp: Checkpoint, role: Role, ev: MachineEvent) {
    match ev
    case End(authority) =>
      && role == def.orchestrator
      && (authority == ByRole && def.endRequestRoles.Some? ==> cp.endRequest.Some?)
    case Handoff(target, requestEnd) =>
      if role == def.orchestrator then target in def.workers && Count(cp.visits, target) < Count(def.maxVisits, target)
      else target == def.orchestrator && (requestEnd ==> MayRequestEnd(def, role))
  }

  lemma AllowsDecides(def: Definition, cp: Checkpoint, role: Role, ev: MachineEvent, file: File)
    requires WellFormed(def) && cp.current == At(role)
    ensures Reduce(cp, ev, def, At(role), file).Accepted? <==> Allows(def, cp, role, ev)
    ensures !Reduce(cp, ev, def, At(role), file).Broken?
    ensures Reduce(cp, ev, def, At(role), file).Accepted? ==>
              var t := Reduce(cp, ev, def, At(role), file).record;
              t.TransitionAccepted? && t.event == ev && t.from == At(role) && t.file == file
  {}

  // ---------------------------------------------------------------- conditions on a prompt

  predicate Aborted(t: Turn) {
    t.before == Some(UserAborted) || t.after == Some(UserAborted)
  }

  /** The prompt threw and the host has no reason for it. */
  predicate Threw(t: Turn) {
    !Aborted(t) && t.error == OtherError && t.after.None?
  }

  /** The cap is reached with this prompt's usage, and settling the children comes first. */
  predicate SettlesAtCap(cfg: Config, st: State, role: Role, t: Turn, ev: MachineEvent) {
    CapReached(cfg, st.log, t.usage) && (role == cfg.def.orchestrator || ev.Handoff?)
  }

  /** The host's reason that stands against the captured event. */
  function Against(cfg: Config, st: State, role: Role, t: Turn, ev: MachineEvent): Option<HostReason> {
    if SettlesAtCap(cfg, st, role, t, ev) then t.settled else t.after
  }

  /** The orchestrator's event is superseded by the close at the cap. */
  ghost predicate Capped(cfg: Config, st: State, role: Role, t: Turn) {
    && !Aborted(t) && !Threw(t)
    && (exists ev :: Captures(cfg, role, t.captures, ev))
    && role == cfg.def.orchestrator && CapReached(cfg, st.log, t.usage) && t.settled != Some(DelegationFailed)
  }

  /** The captured event comes through to the machine. */
  predicate Delivered(cfg: Config, st: State, role: Role, t: Turn, ev: MachineEvent) {
    && !Aborted(t) && !Threw(t) && Captures(cfg, role, t.captures, ev)
    && !(role == cfg.def.orchestrator && CapReached(cfg, st.log, t.usage))
    && Against(cfg, st, role, t, ev).None? && t.error != ChildExit
    && !t.pendingChildren && (ev.End? ==> !t.guidance) && (!cfg.v2 && ev.Handoff? ==> t.envelopeOk)
  }

  /** The end guard is asked about the event. */
  predicate Guarded(cfg: Config, role: Role, ev: MachineEvent) {
    cfg.guarded && role == cfg.def.orchestrator && ev == End(ByRole)
  }

  predicate GuardLets(t: Turn) {
    t.guard == GuardPassed && !t.abortRequested && !t.lateGuidance
  }

  // ---------------------------------------------------------------- what is written first

  /** The first record the step writes. */
  function First(st: State, next: State): Option<Record> {
    if |next.log| > |st.log| then Some(next.log[|st.log|]) else None
  }

  /** The session's terminal with this ending. */
  function Closing(st: State, x: Live, ending: Ending, cost: nat): Record {
    Terminal(ending, x.visit.role, x.visit.index, st.cp.current, x.session.Identity(), x.parent, cost)
  }

  /** The session is live as the invariant says, so it can be closed. */
  ghost predicate Prompted(cfg: Config, st: State, x: Live) {
    && Kept(cfg, st) && WellFormed(cfg.def) && st.phase == Prompting(x)
    && st.cp.current == At(x.visit.role)
    && st.cp.active == Some(Active(x.session.id, x.visit.role, x.session.SessionFile()))
  }

  lemma PromptedHolds(cfg: Config, tape: seq<Answer>)
    requires Proper(cfg) && Run(cfg, tape).phase.Prompting?
    ensures Prompted(cfg, Run(cfg, tape), Run(cfg, tape).phase.live)
  {
    hide Run, BaseOf;
    RunKeeps(cfg, tape);
    RunLawful(cfg, tape);
    BaseFacts(cfg, Run(cfg, tape), false);
  }

  lemma CloseFirst(cfg: Config, st: State, x: Live, ending: Ending, cost: nat)
    requires Prompted(cfg, st, x)
    ensures var closed := Close(st, x, ending, cost);
            closed.Some? && closed.value.log == st.log + [Closing(st, x, ending, cost), Snapshot(closed.value.cp)] &&
            closed.value.cp == st.cp.(active := None)
  {
    hide Kept;
  }

  lemma FailFirst(cfg: Config, st: State, x: Live, cause: Cause, cost: nat, reason: Option<HostReason>)
    requires Prompted(cfg, st, x)
    ensures First(st, Fail(cfg, st, x, cause, cost, reason)) == Some(Closing(st, x, Failed(cause), cost))
  {
    CloseFirst(cfg, st, x, Failed(cause), cost);
    CloseKept(cfg, st, x, Failed(cause), cost);
    var closed := Close(st, x, Failed(cause), cost).value;
    FailureTurned(cfg, closed, x.visit, reason);
    assert closed.log <= AfterFailure(cfg, closed, x.visit, reason).log;
    hide Kept, Close, AfterFailure;
  }

  lemma ForceCloseFirst(cfg: Config, st: State, x: Live, cost: nat)
    requires Prompted(cfg, st, x) && x.visit.role == cfg.def.orchestrator && CapReached(cfg, st.log, cost)
    ensures First(st, ForceClose(cfg, st, x, cost)) == Some(Closing(st, x, Ended, cost))
  {
    CloseFirst(cfg, st, x, Ended, cost);
    CloseKept(cfg, st, x, Ended, cost);
    var closed := Close(st, x, Ended, cost).value;
    ForceEndTurned(cfg, closed);
    assert closed.log <= ForceEnd(cfg, closed).log;
    hide Kept, Close, ForceEnd;
  }

  lemma HeadGrows(cfg: Config, st: State)
    requires WellFormed(cfg.def)
    ensures st.log <= EnterHead(cfg, st).log
  {
    hide Reduce;
  }

  lemma CommitFirst(cfg: Config, st: State, x: Live, cost: nat, cp: Checkpoint, record: TransitionRecord)
    requires WellFormed(cfg.def)
    ensures First(st, Commit(cfg, st, x, cost, cp, record)) == Some(Transition(record))
  {
    hide EnterHead;
    var moved := Advance(st, cp, record);
    var closed := Close(moved, x, Ended, cost);
    if closed.Some? {
      HeadGrows(cfg, closed.value.(nextVisit := closed.value.nextVisit[x.visit.role := x.visit.index + 1]));
      assert moved.log <= closed.value.log;
    }
  }

  // ---------------------------------------------------------------- verdicts

  /** The first record is the acceptance of `ev`. */
  predicate Accepts(r: Option<Record>, ev: MachineEvent) {
    r.Some? && r.value.Transition? && r.value.t.TransitionAccepted? && r.value.t.event == ev
  }

  predicate Rejects(r: Option<Record>) {
    r.Some? && r.value.Transition? && r.value.t.TransitionRejected?
  }

  /** The guard stops the session: why, and how the run exits. */
  predicate GuardStops(t: Turn, cause: Cause, exit: Exit) {
    if t.guard == GuardFatal then cause == GuardCleanupUnconfirmed && exit == ExitFailed
    else if t.guard == GuardAborted || t.abortRequested then cause == FromHost(UserAborted) && exit == ExitAborted
    else t.guard == GuardOutOfBudget && cause == GuardExhausted && exit == ExitFailed
  }

  /** The guard neither stops the session nor lets the end through. */
  predicate GuardAsksAgain(t: Turn) {
    t.guard in {GuardPassed, GuardRetry} && !t.abortRequested && (t.guard == GuardRetry || t.lateGuidance)
  }

  lemma GuardCases(t: Turn)
    ensures GuardLets(t) || GuardAsksAgain(t) || exists cause, exit :: GuardStops(t, cause, exit)
  {
    assert GuardStops(t, GuardCleanupUnconfirmed, ExitFailed) || GuardStops(t, FromHost(UserAborted), ExitAborted) ||
           GuardStops(t, GuardExhausted, ExitFailed) || GuardLets(t) || GuardAsksAgain(t);
  }

  /** What becomes of an event that reached the machine. */
  ghost predicate DecidedAs(cfg: Config, st: State, x: Live, t: Turn, ev: MachineEvent, next: State) {
    var role, first := x.visit.role, First(st, next);
    if !Allows(cfg.def, st.cp, role, ev) then
      Rejects(first) && |next.log| == |st.log| + 1 && next.phase == st.phase
    else if !Guarded(cfg, role, ev) || GuardLets(t) then Accepts(first, ev)
    else if GuardAsksAgain(t) then next == st
    else
      exists cause, exit ::
        && GuardStops(t, cause, exit)
        && first == Some(Closing(st, x, Failed(cause), t.usage)) && next.phase == Stopped(exit)
  }

  lemma DecideIsExact(cfg: Config, st: State, x: Live, t: Turn, ev: MachineEvent)
    requires Prompted(cfg, st, x)
    ensures DecidedAs(cfg, st, x, t, ev, Decide(cfg, st, x, t, ev))
  {
    var role, file := x.visit.role, x.session.SessionFile();
    AllowsDecides(cfg.def, st.cp, role, ev, file);
    hide Kept, Reduce, Commit, FailAndStop, Allows;
    if Allows(cfg.def, st.cp, role, ev) {
      hide DecidedAs, Decide;
      AllowedIsExact(cfg, st, x, t, ev);
    } else {
      RejectedRecord(st.cp, ev, cfg.def, At(role), file);
    }
  }

  lemma AllowedIsExact(cfg: Config, st: State, x: Live, t: Turn, ev: MachineEvent)
    requires Prompted(cfg, st, x) && Allows(cfg.def, st.cp, x.visit.role, ev)
    ensures DecidedAs(cfg, st, x, t, ev, Decide(cfg, st, x, t, ev))
  {
    var role, file := x.visit.role, x.session.SessionFile();
    AllowsDecides(cfg.def, st.cp, role, ev, file);
    var r := Reduce(st.cp, ev, cfg.def, At(role), file);
    hide Kept, Reduce, Commit, Close, Allows;
    CommitFirst(cfg, st, x, t.usage, r.checkpoint, r.record);
    CloseFirst(cfg, st, x, Failed(GuardCleanupUnconfirmed), t.usage);
    CloseFirst(cfg, st, x, Failed(FromHost(UserAborted)), t.usage);
    CloseFirst(cfg, st, x, Failed(GuardExhausted), t.usage);
    GuardCases(t);
  }

  lemma RejectedRecord(cp: Checkpoint, ev: MachineEvent, def: Definition, who: Place, file: File)
    requires WellFormed(def) && Reduce(cp, ev, def, who, file).Rejected?
    ensures Reduce(cp, ev, def, who, file).record.TransitionRejected?
  {}

  /** What is wrong with a buffer that holds no event. */
  predicate Breached(captures: seq<Capture>, cause: Cause) {
    match cause
    case NoEmission => |captures| == 0
    case ExtraEmission => |captures| > 1
    case SchemaInvalid => |captures| == 1 && !captures[0].wellFormed
    case _ => false
  }

  /** An empty buffer is prompted again, three times at most. */
  predicate Recovers(x: Live, t: Turn) {
    && !Aborted(t) && !Threw(t) && |t.captures| == 0
    && t.after.None? && t.error != ChildExit && x.recoveries < 3
  }

  /** Why the session fails on a captured event, before the machine sees it. */
  predicate FailsBefore(cfg: Config, st: State, role: Role, t: Turn, ev: MachineEvent, cause: Cause) {
    && !(role == cfg.def.orchestrator && CapReached(cfg, st.log, t.usage) && t.settled != Some(DelegationFailed))
    && match Against(cfg, st, role, t, ev)
       case Some(reason) => cause == FromHost(reason)
       case None => t.error == ChildExit && cause == RpcChildExit
  }

  /** Why the session fails without an event. */
  predicate FailsWithout(x: Live, t: Turn, cause: Cause) {
    match t.after
    case Some(reason) => cause == FromHost(reason)
    case None => if t.error == ChildExit then cause == RpcChildExit else Breached(t.captures, cause) && !Recovers(x, t)
  }

  /** The prompt ends the session as failed, for this cause. */
  ghost predicate FailsFor(cfg: Config, st: State, x: Live, t: Turn, cause: Cause) {
    if Aborted(t) then cause == FromHost(UserAborted)
    else if Threw(t) then false
    else if exists ev :: Captures(cfg, x.visit.role, t.captures, ev) then
      exists ev ::
        && Captures(cfg, x.visit.role, t.captures, ev)
        && (FailsBefore(cfg, st, x.visit.role, t, ev, cause) || StoppedByGuard(cfg, st, x.visit.role, t, ev, cause))
    else FailsWithout(x, t, cause)
  }

  ghost predicate StoppedByGuard(cfg: Config, st: State, role: Role, t: Turn, ev: MachineEvent, cause: Cause) {
    && Delivered(cfg, st, role, t, ev) && Allows(cfg.def, st.cp, role, ev) && Guarded(cfg, role, ev)
    && exists exit :: GuardStops(t, cause, exit)
  }

  /** The session goes on: the event waits for children, guidance, an envelope or the guard. */
  predicate Waits(cfg: Config, st: State, role: Role, t: Turn, ev: MachineEvent) {
    && !Aborted(t) && !Threw(t) && Captures(cfg, role, t.captures, ev)
    && !(role == cfg.def.orchestrator && CapReached(cfg, st.log, t.usage))
    && Against(cfg, st, role, t, ev).None? && t.error != ChildExit
    && (t.pendingChildren || (ev.End? && t.guidance) || (!cfg.v2 && ev.Handoff? && !t.envelopeOk) ||
        (Allows(cfg.def, st.cp, role, ev) && Guarded(cfg, role, ev) && GuardAsksAgain(t)))
  }

  /** The whole verdict on a prompt, by the first record and the phase. */
  ghost predicate Verdict(cfg: Config, st: State, x: Live, t: Turn, next: State) {
    var role, first := x.visit.role, First(st, next);
    && (forall ev :: Accepts(first, ev) <==>
          Delivered(cfg, st, role, t, ev) && Allows(cfg.def, st.cp, role, ev) &&
          (Guarded(cfg, role, ev) ==> GuardLets(t)))
    && (Rejects(first) <==> exists ev :: Delivered(cfg, st, role, t, ev) && !Allows(cfg.def, st.cp, role, ev))
    && (first == Some(Closing(st, x, Ended, t.usage)) <==> Capped(cfg, st, role, t))
    && (forall cause :: first == Some(Closing(st, x, Failed(cause), t.usage)) <==> FailsFor(cfg, st, x, t, cause))
    && (first.None? <==> Threw(t) || Recovers(x, t) || exists ev :: Waits(cfg, st, role, t, ev))
  }

  /** A buffer holds one event. */
  lemma OneEvent(cfg: Config, role: Role, captures: seq<Capture>, ev: MachineEvent)
    requires Captures(cfg, role, captures, ev)
    ensures forall e :: Captures(cfg, role, captures, e) ==> e == ev
  {}

  lemma AcceptVerdict(cfg: Config, st: State, x: Live, t: Turn, ev: MachineEvent, next: State)
    requires Delivered(cfg, st, x.visit.role, t, ev) && Allows(cfg.def, st.cp, x.visit.role, ev)
    requires (Guarded(cfg, x.visit.role, ev) ==> GuardLets(t)) && Accepts(First(st, next), ev)
    ensures Verdict(cfg, st, x, t, next)
  {
    OneEvent(cfg, x.visit.role, t.captures, ev);
    hide Captures, Allows, CapReached;
  }

  lemma RejectVerdict(cfg: Config, st: State, x: Live, t: Turn, ev: MachineEvent, next: State)
    requires Delivered(cfg, st, x.visit.role, t, ev) && !Allows(cfg.def, st.cp, x.visit.role, ev)
    requires Rejects(First(st, next))
    ensures Verdict(cfg, st, x, t, next)
  {
    OneEvent(cfg, x.visit.role, t.captures, ev);
    hide Captures, Allows, CapReached;
  }

  lemma CapVerdict(cfg: Config, st: State, x: Live, t: Turn, ev: MachineEvent, next: State)
    requires Capped(cfg, st, x.visit.role, t) && Captures(cfg, x.visit.role, t.captures, ev)
    requires First(st, next) == Some(Closing(st, x, Ended, t.usage))
    ensures Verdict(cfg, st, x, t, next)
  {
    OneEvent(cfg, x.visit.role, t.captures, ev);
    hide Captures, Allows, CapReached;
  }

  lemma FailVerdict(cfg: Config, st: State, x: Live, t: Turn, ev: MachineEvent, cause: Cause, next: State)
    requires !Aborted(t) && !Threw(t) && Captures(cfg, x.visit.role, t.captures, ev)
    requires FailsBefore(cfg, st, x.visit.role, t, ev, cause)
    requires First(st, next) == Some(Closing(st, x, Failed(cause), t.usage))
    ensures Verdict(cfg, st, x, t, next)
  {
    OneEvent(cfg, x.visit.role, t.captures, ev);
    hide Captures, Allows, CapReached;
  }

  lemma GuardVerdict(cfg: Config, st: State, x: Live, t: Turn, ev: MachineEvent, cause: Cause, next: State)
    requires StoppedByGuard(cfg, st, x.visit.role, t, ev, cause)
    requires First(st, next) == Some(Closing(st, x, Failed(cause), t.usage))
    ensures Verdict(cfg, st, x, t, next)
  {
    OneEvent(cfg, x.visit.role, t.captures, ev);
    hide Captures, Allows, CapReached;
  }

  lemma WaitVerdict(cfg: Config, st: State, x: Live, t: Turn, ev: MachineEvent, next: State)
    requires Waits(cfg, st, x.visit.role, t, ev) && First(st, next).None?
    ensures Verdict(cfg, st, x, t, next)
  {
    OneEvent(cfg, x.visit.role, t.captures, ev);
    hide Captures, Allows, CapReached;
  }

  /** Without an event. */
  lemma BreachVerdict(cfg: Config, st: State, x: Live, t: Turn, next: State)
    requires !exists ev :: Captures(cfg, x.visit.role, t.captures, ev)
    requires forall cause :: First(st, next) == Some(Closing(st, x, Failed(cause), t.usage)) <==>
                             FailsFor(cfg, st, x, t, cause)
    requires First(st, next).None? <==> Threw(t) || Recovers(x, t)
    requires First(st, next).Some? ==>
               exists cause :: First(st, next) == Some(Closing(st, x, Failed(cause), t.usage))
    ensures Verdict(cfg, st, x, t, next)
  {
    hide Captures, Allows, CapReached, FailsFor;
  }

  /** The state in which the event is decided: the close is due once a worker hands back at the cap. */
  function Due(cfg: Config, st: State, role: Role, t: Turn, ev: MachineEvent): State {
    if SettlesAtCap(cfg, st, role, t, ev) && role != cfg.def.orchestrator && t.settled != Some(DelegationFailed)
    then st.(forced := true) else st
  }

  lemma FailedEmission(cfg: Config, st: State, x: Live, t: Turn, ev: MachineEvent)
    requires Prompted(cfg, st, x) && !Aborted(t) && !Threw(t) && Captures(cfg, x.visit.role, t.captures, ev)
    requires !Capped(cfg, st, x.visit.role, t)
    requires Against(cfg, st, x.visit.role, t, ev).Some? || t.error == ChildExit
    ensures Verdict(cfg, st, x, t, OnEmission(cfg, st, x, t, ev))
  {
    var role := x.visit.role;
    var due, reason := Due(cfg, st, role, t, ev), Against(cfg, st, role, t, ev);
    var cause := if reason.Some? then FromHost(reason.value) else RpcChildExit;
    FailFirst(cfg, due, x, cause, t.usage, reason);
    assert OnEmission(cfg, st, x, t, ev) == Fail(cfg, due, x, cause, t.usage, reason) by {
      hide Kept, Fail, Decide, ForceClose, CapReached, Captures;
    }
    FailVerdict(cfg, st, x, t, ev, cause, OnEmission(cfg, st, x, t, ev));
  }

  lemma DecidedEmission(cfg: Config, st: State, x: Live, t: Turn, ev: MachineEvent)
    requires Prompted(cfg, st, x) && Delivered(cfg, st, x.visit.role, t, ev)
    ensures Verdict(cfg, st, x, t, OnEmission(cfg, st, x, t, ev))
  {
    var role := x.visit.role;
    var due := Due(cfg, st, role, t, ev);
    var next := OnEmission(cfg, st, x, t, ev);
    DecideIsExact(cfg, due, x, t, ev);
    assert next == Decide(cfg, due, x, t, ev) by {
      hide Kept, Fail, Decide, ForceClose, CapReached, Captures;
    }
    hide OnEmission, Decide, Kept, Captures, CapReached, Verdict;
    if !Allows(cfg.def, st.cp, role, ev) {
      RejectVerdict(cfg, st, x, t, ev, next);
    } else if !Guarded(cfg, role, ev) || GuardLets(t) {
      AcceptVerdict(cfg, st, x, t, ev, next);
    } else if GuardAsksAgain(t) {
      WaitVerdict(cfg, st, x, t, ev, next);
    } else {
      var cause, exit :| GuardStops(t, cause, exit) &&
                         First(due, next) == Some(Closing(due, x, Failed(cause), t.usage));
      GuardVerdict(cfg, st, x, t, ev, cause, next);
    }
  }

  lemma EmissionVerdict(cfg: Config, st: State, x: Live, t: Turn, ev: MachineEvent)
    requires Prompted(cfg, st, x) && !Aborted(t) && !Threw(t) && Captures(cfg, x.visit.role, t.captures, ev)
    ensures Verdict(cfg, st, x, t, OnEmission(cfg, st, x, t, ev))
  {
    var role := x.visit.role;
    if Capped(cfg, st, role, t) {
      ForceCloseFirst(cfg, st, x, t.usage);
      CapVerdict(cfg, st, x, t, ev, OnEmission(cfg, st, x, t, ev));
    } else if Against(cfg, st, role, t, ev).Some? || t.error == ChildExit {
      FailedEmission(cfg, st, x, t, ev);
    } else if t.pendingChildren || (ev.End? && t.guidance) || (!cfg.v2 && ev.Handoff? && !t.envelopeOk) {
      assert First(st, OnEmission(cfg, st, x, t, ev)).None? by {
        hide Kept, Fail, Decide, ForceClose, Captures;
      }
      hide OnEmission, Verdict;
      WaitVerdict(cfg, st, x, t, ev, OnEmission(cfg, st, x, t, ev));
    } else {
      hide OnEmission, Verdict;
      DecidedEmission(cfg, st, x, t, ev);
    }
  }

  lemma TurnVerdict(cfg: Config, st: State, x: Live, t: Turn)
    requires Prompted(cfg, st, x)
    ensures Verdict(cfg, st, x, t, OnTurn(cfg, st, x, t))
  {
    var role, next := x.visit.role, OnTurn(cfg, st, x, t);
    CapturesDecide(cfg, role, t.captures);
    hide Captures, Kept, ValidateEmission;
    if Aborted(t) {
      AbortVerdict(cfg, st, x, t);
    } else if Threw(t) {
      ThrowVerdict(cfg, st, x, t);
    } else if ev :| Captures(cfg, role, t.captures, ev) {
      EmissionVerdict(cfg, st, x, t, ev);
    } else {
      WithoutVerdict(cfg, st, x, t);
    }
  }

  lemma AbortVerdict(cfg: Config, st: State, x: Live, t: Turn)
    requires Prompted(cfg, st, x) && Aborted(t)
    ensures Verdict(cfg, st, x, t, OnTurn(cfg, st, x, t))
  {
    CloseFirst(cfg, st, x, Failed(FromHost(UserAborted)), t.usage);
    hide Captures, Kept, Allows, CapReached, Close;
  }

  lemma ThrowVerdict(cfg: Config, st: State, x: Live, t: Turn)
    requires Prompted(cfg, st, x) && Threw(t)
    ensures Verdict(cfg, st, x, t, OnTurn(cfg, st, x, t))
  {
    hide Captures, Kept, Allows, CapReached;
  }

  lemma WithoutVerdict(cfg: Config, st: State, x: Live, t: Turn)
    requires Prompted(cfg, st, x) && !Aborted(t) && !Threw(t)
    requires forall ev :: !Captures(cfg, x.visit.role, t.captures, ev)
    ensures Verdict(cfg, st, x, t, OnTurn(cfg, st, x, t))
  {
    var role, next := x.visit.role, OnTurn(cfg, st, x, t);
    CapturesDecide(cfg, role, t.captures);
    var breach := ValidateEmission(cfg, role, t.captures);
    hide Captures, ValidateEmission, Kept, CapReached, Fail;
    if Recovers(x, t) {
      assert First(st, next).None?;
    } else {
      var cause := if t.after.Some? then FromHost(t.after.value) else if t.error == ChildExit then RpcChildExit
        else breach.cause;
      FailFirst(cfg, st, x, cause, t.usage, t.after);
      assert First(st, next) == Some(Closing(st, x, Failed(cause), t.usage));
    }
    hide OnTurn;
    BreachVerdict(cfg, st, x, t, next);
  }

  // ---------------------------------------------------------------- every history

  /** A prompt in any history comes to its verdict. */
  lemma PromptVerdict(cfg: Config, tape: seq<Answer>, answer: Answer)
    requires Proper(cfg) && Run(cfg, tape).phase.Prompting? && answer.Reply?
    ensures var st := Run(cfg, tape);
            Verdict(cfg, st, st.phase.live, answer.turn, Run(cfg, tape + [answer]))
  {
    hide Run, Kept, Verdict;
    PromptedHolds(cfg, tape);
    RunMore(cfg, tape, answer);
    var st := Run(cfg, tape);
    TurnVerdict(cfg, st, st.phase.live, answer.turn);
  }

  /** A turn of the orchestrator brings its end to the machine, which allows it. */
  predicate EndDelivered(cfg: Config, st: State, t: Turn) {
    && st.phase.Prompting? && st.phase.live.visit.role == cfg.def.orchestrator
    && Delivered(cfg, st, cfg.def.orchestrator, t, End(ByRole))
    && Allows(cfg.def, st.cp, cfg.def.orchestrator, End(ByRole))
  }

  lemma CommitEnds(cfg: Config, st: State, x: Live, cost: nat, cp: Checkpoint, record: TransitionRecord)
    requires Prompted(cfg, st, x) && cp.current == Done && cp.active == st.cp.active
    ensures Commit(cfg, st, x, cost, cp, record).phase == Stopped(ExitDone)
  {
    hide Kept;
  }

  /** An end that is let through finishes the run. */
  lemma EndFinishes(cfg: Config, st: State, x: Live, t: Turn)
    requires Prompted(cfg, st, x) && x.visit.role == cfg.def.orchestrator
    requires Allows(cfg.def, st.cp, x.visit.role, End(ByRole)) && (cfg.guarded ==> GuardLets(t))
    ensures Decide(cfg, st, x, t, End(ByRole)).phase == Stopped(ExitDone)
  {
    var r := Reduce(st.cp, End(ByRole), cfg.def, At(x.visit.role), x.session.SessionFile());
    assert r.Accepted? && r.checkpoint.current == Done && r.checkpoint.active == st.cp.active;
    CommitEnds(cfg, st, x, t.usage, r.checkpoint, r.record);
    hide Kept, Reduce, Commit;
  }

  /** The guard's verdict on an end that reached it: the run finished, asked again with nothing written, or stopped. */
  lemma GuardRules(cfg: Config, tape: seq<Answer>, answer: Answer)
    requires Proper(cfg) && cfg.guarded && answer.Reply? && EndDelivered(cfg, Run(cfg, tape), answer.turn)
    ensures var st, next := Run(cfg, tape), Run(cfg, tape + [answer]);
            var t := answer.turn;
            && (GuardLets(t) ==> Accepts(First(st, next), End(ByRole)) && next.phase == Stopped(ExitDone))
            && (GuardAsksAgain(t) ==> next == st)
            && (forall cause, exit :: GuardStops(t, cause, exit) ==>
                  && First(st, next) == Some(Closing(st, st.phase.live, Failed(cause), t.usage))
                  && next.phase == Stopped(exit))
    ensures GuardLets(answer.turn) || GuardAsksAgain(answer.turn) ||
            exists cause, exit :: GuardStops(answer.turn, cause, exit)
  {
    hide Run, Kept, OnEmission, Commit, Reduce, Decide, CapReached, ValidateEmission;
    PromptedHolds(cfg, tape);
    RunMore(cfg, tape, answer);
    GuardCases(answer.turn);
    var st, t := Run(cfg, tape), answer.turn;
    var x := st.phase.live;
    CapturesDecide(cfg, x.visit.role, t.captures);
    DecideIsExact(cfg, st, x, t, End(ByRole));
    if GuardLets(t) {
      EndFinishes(cfg, st, x, t);
    }
    GuardedEnd(cfg, st, x, t);
    hide OnTurn, Captures, Closing, First;
  }

  /** Without a cap close, a reason or a wait, the end is for the machine and the guard to decide. */
  lemma GuardedEnd(cfg: Config, st: State, x: Live, t: Turn)
    requires Prompted(cfg, st, x) && x.visit.role == cfg.def.orchestrator
    requires Delivered(cfg, st, cfg.def.orchestrator, t, End(ByRole))
    ensures OnTurn(cfg, st, x, t) == Decide(cfg, st, x, t, End(ByRole))
  {
    CapturesDecide(cfg, x.visit.role, t.captures);
    hide Kept, Fail, Decide, ForceClose, CapReached, Captures, ValidateEmission;
  }

  /** The entry of the tape that brought an end through, from the records `before` it. */
  ghost predicate PassedAt(cfg: Config, tape: seq<Answer>, n: nat, before: seq<Record>)
    requires WellFormed(cfg.def)
  {
    && n < |tape| && tape[n].Reply? && Run(cfg, tape[..n]).log == before
    && EndDelivered(cfg, Run(cfg, tape[..n]), tape[n].turn)
    && (cfg.guarded ==> GuardLets(tape[n].turn))
  }

  lemma RecoveryHasNoMoves(log: seq<Record>, j: nat)
    requires LatestSnapshot(log).Some? && j < |Recovered(log)| && Recovered(log)[j].Transition?
    ensures j < |log|
  {}

  /** A role's end is an earlier one, or the first record of a prompt's answer. */
  lemma EndIsNew(cfg: Config, tape: seq<Answer>, answer: Answer, j: nat)
    requires Proper(cfg) && j < |Run(cfg, tape + [answer]).log| && RoleEnd(Run(cfg, tape + [answer]).log[j])
    ensures var st, next := Run(cfg, tape), Run(cfg, tape + [answer]);
            if j < |st.log| then next.log[..j] == st.log[..j] && next.log[j] == st.log[j]
            else next.log[..j] == st.log && st.phase.Prompting? && answer.Reply?
  {
    hide Run, Kept, OnSpawn, OnTurn, Resume;
    var st, next := Run(cfg, tape), Run(cfg, tape + [answer]);
    RunMore(cfg, tape, answer);
    RunKeeps(cfg, tape);
    RunLawful(cfg, tape);
    match answer
    case Crash(keep) =>
      RecoveryWrites(cfg, st, keep);
      RecoveryHasNoMoves(Cut(st.log, keep), j);
    case Reply(spawned, shared, turn) =>
      match st.phase
      case Spawning(v) => SpawnStep(cfg, st, v, spawned, shared);
      case Prompting(x) => TurnTurned(cfg, st, x, turn);
      case Stopped(_) =>
  }

  lemma NewEndPassed(cfg: Config, tape: seq<Answer>, answer: Answer)
    requires Proper(cfg) && Run(cfg, tape).phase.Prompting? && answer.Reply?
    requires Accepts(First(Run(cfg, tape), Run(cfg, tape + [answer])), End(ByRole))
    ensures PassedAt(cfg, tape + [answer], |tape|, Run(cfg, tape).log)
  {
    hide Run, CapReached, First, Accepts;
    PromptVerdict(cfg, tape, answer);
    assert (tape + [answer])[..|tape|] == tape;
  }

  /**
   * In every history each accepted end of a role comes from an answer that
   * captured it, whose event nothing stood against and, with an end guard, that
   * the guard let through.
   */
  lemma {:induction false} EndsPassTheGuard(cfg: Config, tape: seq<Answer>, j: nat)
    requires Proper(cfg) && j < |Run(cfg, tape).log| && RoleEnd(Run(cfg, tape).log[j])
    ensures exists n: nat :: PassedAt(cfg, tape, n, Run(cfg, tape).log[..j])
    decreases |tape|
  {
    if tape != [] {
      hide Run, EndDelivered, GuardLets;
      var m := |tape| - 1;
      var before := Run(cfg, tape[..m]).log;
      assert tape == tape[..m] + [tape[m]];
      EndIsNew(cfg, tape[..m], tape[m], j);
      if j >= |before| {
        NewEndPassed(cfg, tape[..m], tape[m]);
        assert PassedAt(cfg, tape, m, Run(cfg, tape).log[..j]);
      } else {
        EndsPassTheGuard(cfg, tape[..m], j);
        var n: nat :| PassedAt(cfg, tape[..m], n, before[..j]);
        assert tape[..m][..n] == tape[..n];
        assert PassedAt(cfg, tape, n, Run(cfg, tape).log[..j]);
      }
    }
  }

  /** A terminal that reports a normal end follows its session's accepted event, or closes the run at the cap. */
  lemma EndedAnswersMove(cfg: Config, tape: seq<Answer>, j: nat)
    requires Proper(cfg) && j < |Run(cfg, tape).log|
    requires Run(cfg, tape).log[j].Terminal? && Run(cfg, tape).log[j].ending == Ended
    ensures var log := Run(cfg, tape).log;
            || (j >= 2 && log[j - 1].Snapshot? && log[j - 2].Transition? && log[j - 2].t.TransitionAccepted? &&
                log[j - 2].t.from == At(log[j].role))
            || (log[j].role == cfg.def.orchestrator && cfg.cap.Some? &&
                Spent(log[..j]) + log[j].cost >= cfg.cap.value)
  {
    hide Run;
    RunLawful(cfg, tape);
    var log := Run(cfg, tape).log;
    assert Lawful(cfg, log[..j], log[j]);
  }

  lemma SilentTurn(cfg: Config, st: State, x: Live, t: Turn)
    requires Prompted(cfg, st, x)
    ensures var next := OnTurn(cfg, st, x, t);
            && (Aborted(t) ==> next.phase == Stopped(ExitAborted))
            && (Threw(t) ==> next == st.(phase := Stopped(Thrown(PromptThrew))))
            && (Recovers(x, t) ==> next == st.(phase := Prompting(x.(recoveries := x.recoveries + 1))))
  {
    CloseFirst(cfg, st, x, Failed(FromHost(UserAborted)), t.usage);
    hide Kept, OnEmission, Fail, Close;
  }

  lemma WaitingTurn(cfg: Config, st: State, x: Live, t: Turn, ev: MachineEvent)
    requires Prompted(cfg, st, x) && Waits(cfg, st, x.visit.role, t, ev)
    ensures OnTurn(cfg, st, x, t) == Due(cfg, st, x.visit.role, t, ev)
  {
    var role := x.visit.role;
    CapturesDecide(cfg, role, t.captures);
    DecideIsExact(cfg, Due(cfg, st, role, t, ev), x, t, ev);
    hide Kept, ValidateEmission, Captures, Fail, FailAndStop, ForceClose, Decide, CapReached, Allows;
  }

  /** Where a prompt that writes nothing leaves the session, and how an abort or a thrown error leaves the run. */
  lemma SilentPrompts(cfg: Config, tape: seq<Answer>, answer: Answer)
    requires Proper(cfg) && Run(cfg, tape).phase.Prompting? && answer.Reply?
    ensures var st, next, t := Run(cfg, tape), Run(cfg, tape + [answer]), answer.turn;
            var x := st.phase.live;
            && (Aborted(t) ==> next.phase == Stopped(ExitAborted))
            && (Threw(t) ==> next == st.(phase := Stopped(Thrown(PromptThrew))))
            && (Recovers(x, t) ==> next == st.(phase := Prompting(x.(recoveries := x.recoveries + 1))))
            && (forall ev :: Waits(cfg, st, x.visit.role, t, ev) ==> next == Due(cfg, st, x.visit.role, t, ev))
  {
    hide Run, Kept, OnTurn, Waits, Due, Recovers;
    PromptedHolds(cfg, tape);
    RunMore(cfg, tape, answer);
    var st, t := Run(cfg, tape), answer.turn;
    SilentTurn(cfg, st, st.phase.live, t);
    forall ev | Waits(cfg, st, st.phase.live.visit.role, t, ev)
      ensures OnTurn(cfg, st, st.phase.live, t) == Due(cfg, st, st.phase.live.visit.role, t, ev)
    {
      WaitingTurn(cfg, st, st.phase.live, t, ev);
    }
  }

  // ---------------------------------------------------------------- the deferred close

  /** A worker hands back at the cap with its children settled, or failing for another reason than delegation. */
  ghost predicate Defers(cfg: Config, st: State, role: Role, t: Turn) {
    && !Aborted(t) && !Threw(t) && role != cfg.def.orchestrator
    && CapReached(cfg, st.log, t.usage) && t.settled != Some(DelegationFailed)
    && exists ev: MachineEvent :: ev.Handoff? && Captures(cfg, role, t.captures, ev)
  }

  /** What only a spawn, or the close falling due, changes. */
  predicate SameProcess(st: State, next: State) {
    next.forced == st.forced && next.parent == st.parent && next.minted == st.minted
  }

  lemma HeadSameProcess(cfg: Config, st: State)
    requires WellFormed(cfg.def)
    ensures SameProcess(st, EnterHead(cfg, st))
  {
    hide Reduce;
  }

  lemma FailSameProcess(cfg: Config, st: State, x: Live, cause: Cause, cost: nat, reason: Option<HostReason>)
    requires WellFormed(cfg.def)
    ensures SameProcess(st, Fail(cfg, st, x, cause, cost, reason))
  {
    hide Reduce, SessionTerminal, EnterHead, CapReached, OutOfModels;
    forall s: State | true
      ensures SameProcess(s, EnterHead(cfg, s))
    {
      HeadSameProcess(cfg, s);
    }
  }

  lemma CommitSameProcess(cfg: Config, st: State, x: Live, cost: nat, cp: Checkpoint, record: TransitionRecord)
    requires WellFormed(cfg.def)
    ensures SameProcess(st, Commit(cfg, st, x, cost, cp, record))
  {
    hide SessionTerminal, EnterHead;
    var closed := Close(Advance(st, cp, record), x, Ended, cost);
    if closed.Some? {
      HeadSameProcess(cfg, closed.value.(nextVisit := closed.value.nextVisit[x.visit.role := x.visit.index + 1]));
    }
  }

  lemma DecideSameProcess(cfg: Config, st: State, x: Live, t: Turn, ev: MachineEvent)
    requires WellFormed(cfg.def)
    ensures SameProcess(st, Decide(cfg, st, x, t, ev))
  {
    hide SessionTerminal, Commit, Reduce;
    var r := Reduce(st.cp, ev, cfg.def, At(x.visit.role), x.session.SessionFile());
    if r.Accepted? {
      CommitSameProcess(cfg, st, x, t.usage, r.checkpoint, r.record);
    }
  }

  lemma EmissionDefers(cfg: Config, st: State, x: Live, t: Turn, ev: MachineEvent)
    requires WellFormed(cfg.def)
    ensures OnEmission(cfg, st, x, t, ev).forced <==>
            st.forced || (x.visit.role != cfg.def.orchestrator && ev.Handoff? && CapReached(cfg, st.log, t.usage) &&
                          t.settled != Some(DelegationFailed))
    ensures var next := OnEmission(cfg, st, x, t, ev); next.parent == st.parent && next.minted == st.minted
  {
    var due := Due(cfg, st, x.visit.role, t, ev);
    var reason := Against(cfg, st, x.visit.role, t, ev);
    hide Fail, Decide, CapReached, SessionTerminal, Reduce;
    if reason.Some? {
      FailSameProcess(cfg, due, x, FromHost(reason.value), t.usage, reason);
    }
    FailSameProcess(cfg, due, x, RpcChildExit, t.usage, None);
    DecideSameProcess(cfg, due, x, t, ev);
  }

  /** A prompt makes the close due exactly when a worker hands back at the cap; nothing else changes that. */
  lemma DeferralIsExact(cfg: Config, tape: seq<Answer>, answer: Answer)
    requires Proper(cfg) && Run(cfg, tape).phase.Prompting? && answer.Reply?
    ensures var st := Run(cfg, tape);
            var next := Run(cfg, tape + [answer]);
            && (next.forced <==> st.forced || Defers(cfg, st, st.phase.live.visit.role, answer.turn))
            && next.parent == st.parent && next.minted == st.minted
  {
    hide Run, Fail, OnEmission, CapReached, SessionTerminal, ValidateEmission, Captures;
    RunMore(cfg, tape, answer);
    var st, t := Run(cfg, tape), answer.turn;
    var x := st.phase.live;
    var found := ValidateEmission(cfg, x.visit.role, t.captures);
    CapturesDecide(cfg, x.visit.role, t.captures);
    if found.Emitted? {
      EmissionDefers(cfg, st, x, t, found.ev);
      OneEvent(cfg, x.visit.role, t.captures, found.ev);
    } else {
      if t.after.Some? {
        FailSameProcess(cfg, st, x, FromHost(t.after.value), t.usage, t.after);
      }
      FailSameProcess(cfg, st, x, if t.error == ChildExit then RpcChildExit else found.cause, t.usage, None);
    }
  }
}
