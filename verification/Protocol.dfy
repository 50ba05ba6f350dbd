/**
 * One run of the orchestration loop as a state machine over the host's answers.
 *
 * The loop stops to ask its host two questions: "spawn this role" and "prompt
 * this session". A tape holds the answers in order; an entry may instead be a
 * crash, which cuts the log and restarts the run through recovery. A step
 * consumes one entry and appends, in the source's order, every record written
 * before the next question.
 */
module Protocol {
  import opened Wrappers
  import opened Machine

  // ---------------------------------------------------------------- data

  datatype HostReason = UserAborted | ModelFailure | DelegationFailed | OtherCause(code: string)

  datatype Cause =
    | FromHost(reason: HostReason)
    | RpcChildExit
    | NoEmission | ExtraEmission | SchemaInvalid
    | GuardExhausted | GuardCleanupUnconfirmed
    | FallbackStartFailed
    | LostInCrash

  datatype Ending = Ended | Failed(cause: Cause)

  /** What a lifecycle record says of its session; legacy sessions have no logical id. */
  datatype Ident = Ident(logical: Option<nat>, file: File)

  datatype Record =
    | Snapshot(checkpoint: Checkpoint)
    | Transition(t: TransitionRecord)
    | Started(role: Role, visitIndex: nat, at: Place, ident: Ident, parent: Option<nat>)
    | Terminal(ending: Ending, role: Role, visitIndex: nat, at: Place, ident: Ident, parent: Option<nat>, cost: nat)
    | ModelRetry(role: Role, attempt: nat, maxRetries: nat)
    | ModelFallback(role: Role, to: nat)

  /**
   * `models[r]` lists, per model entry of role `r`, its retry allowance; an
   * absent or empty list selects the system default model.
   */
  datatype Config = Config(
    def: Definition, models: map<Role, seq<nat>>, cap: Option<nat>, guarded: bool, v2: bool)

  /** `shared` names the physical file of a logical session; legacy sessions own theirs. */
  datatype Session = Session(id: nat, shared: Option<string>) {
    function SessionFile(): File { if shared.Some? then Shared(shared.value) else Own(id) }
    function Identity(): Ident { Ident(if shared.Some? then Some(id) else None, SessionFile()) }
  }

  datatype Visit = Visit(role: Role, index: nat, model: nat, retry: nat)

  datatype Live = Live(visit: Visit, session: Session, parent: Option<nat>, recoveries: nat)

  datatype Fault = PromptThrew | SpawnThrew | NoCheckpoint | InvariantBroken

  datatype Exit = ExitDone | ExitFailed | ExitAborted | Thrown(fault: Fault)

  datatype Phase = Spawning(visit: Visit) | Prompting(live: Live) | Stopped(exit: Exit)

  datatype State = State(
    cp: Checkpoint,
    log: seq<Record>,
    parent: Option<nat>,
    forced: bool,
    nextVisit: map<Role, nat>,
    minted: nat,
    phase: Phase)

  // ---------------------------------------------------------------- host answers

  datatype Capture = HandoffCapture(wellFormed: bool, target: Role, requestEnd: bool) | EndCapture(wellFormed: bool)

  datatype PromptError = NoError | ChildExit | OtherError

  datatype GuardOutcome = GuardPassed | GuardRetry | GuardOutOfBudget | GuardAborted | GuardFatal

  /** Everything the loop reads from the host around one prompt. */
  datatype Turn = Turn(
    before: Option<HostReason>,
    error: PromptError,
    after: Option<HostReason>,
    settled: Option<HostReason>,
    usage: nat,
    captures: seq<Capture>,
    pendingChildren: bool,
    guidance: bool,
    envelopeOk: bool,
    guard: GuardOutcome,
    abortRequested: bool,
    lateGuidance: bool)

  /** One entry answers whichever question comes next. */
  datatype Answer = Reply(spawned: bool, shared: Option<string>, turn: Turn) | Crash(keep: nat)

  const MAX_RECOVERY_PROMPTS := 3
  const CAP_END_FILE := Synthesized("end:run-cost-cap")
  const UNAVAILABLE_FILE := Synthesized("handoff:role-unavailable")
  const FALLBACK_FILE := Synthesized("session-failed:fallback-start")

  // ---------------------------------------------------------------- host queries

  function Models(cfg: Config, role: Role): seq<nat> {
    if role in cfg.models then cfg.models[role] else []
  }

  /** `selectModelEntry` raises exhaustion only for a list that is there. */
  predicate OutOfModels(cfg: Config, v: Visit) {
    Models(cfg, v.role) != [] && v.model >= |Models(cfg, v.role)|
  }

  function Retries(cfg: Config, v: Visit): nat {
    if v.model < |Models(cfg, v.role)| then Models(cfg, v.role)[v.model] else 0
  }

  /** `runCostSoFar`: persisted terminals only. */
  function Spent(log: seq<Record>): nat {
    if log == [] then 0
    else
      var r := log[|log| - 1];
      Spent(log[..|log| - 1]) + if r.Terminal? then r.cost else 0
  }

  predicate CapReached(cfg: Config, log: seq<Record>, extra: nat) {
    cfg.cap.Some? && Spent(log) + extra >= cfg.cap.value
  }

  datatype Emission = Emitted(ev: MachineEvent) | Breach(cause: Cause)

  /** Exactly one capture, and that one well formed. */
  function ValidateEmission(cfg: Config, role: Role, captures: seq<Capture>): Emission {
    if |captures| == 0 then Breach(NoEmission)
    else if |captures| > 1 then Breach(ExtraEmission)
    else if !captures[0].wellFormed then Breach(SchemaInvalid)
    else match captures[0]
      case EndCapture(_) => Emitted(End(ByRole))
      case HandoffCapture(_, target, requestEnd) =>
        if !cfg.v2 then Emitted(Handoff(target, requestEnd))
        else if role == cfg.def.orchestrator then Emitted(Handoff(target, false))
        else Emitted(Handoff(cfg.def.orchestrator, MayRequestEnd(cfg.def, role) && requestEnd))
  }

  // ---------------------------------------------------------------- persisting steps

  function Write(st: State, records: seq<Record>): State {
    st.(log := st.log + records)
  }

  function Halt(st: State, exit: Exit): State {
    st.(phase := Stopped(exit))
  }

  function Broken(st: State): State {
    Halt(st, Thrown(InvariantBroken))
  }

  /** A lifecycle terminal for the live session, then its snapshot. */
  function Close(st: State, x: Live, ending: Ending, cost: nat): Option<State> {
    match SessionTerminal(st.cp, x.visit.role, x.session.id)
    case LifecycleError => None
    case LifecycleOk(cp) =>
      Some(Write(st, [
        Terminal(ending, x.visit.role, x.visit.index, st.cp.current, x.session.Identity(), x.parent, cost),
        Snapshot(cp)]).(cp := cp))
  }

  /** A transition record, then its snapshot. */
  function Advance(st: State, cp: Checkpoint, record: TransitionRecord): State {
    Write(st, [Transition(record), Snapshot(cp)]).(cp := cp)
  }

  /** `forceRunCostCapEnd` without its optional terminal. */
  function ForceEnd(cfg: Config, st: State): State
    requires WellFormed(cfg.def)
  {
    match Reduce(st.cp, End(ByRunCostCap), cfg.def, At(cfg.def.orchestrator), CAP_END_FILE)
    case Broken => Broken(st)
    case Accepted(cp, record) => Halt(Advance(st, cp, record), ExitDone)
    case Rejected(cp, _, record) => Halt(Advance(st, cp, record), ExitDone)
  }

  // ---------------------------------------------------------------- outer loop

  function VisitIndex(st: State, role: Role): nat {
    if role in st.nextVisit then st.nextVisit[role] else 1
  }

  /** The head of `runLoop`, up to the spawn of the visit's first session. */
  function EnterHead(cfg: Config, st: State): State
    requires WellFormed(cfg.def)
  {
    if st.cp.current == Done then Halt(st, ExitDone)
    else if st.forced then
      if st.cp.current != At(cfg.def.orchestrator) then Broken(st) else ForceEnd(cfg, st)
    else if st.cp.active.Some? then Broken(st)
    else
      var role := st.cp.current.role;
      st.(phase := Spawning(Visit(role, VisitIndex(st, role), 0, 0)))
  }

  /** The role's visit is over: its next one gets the next index. */
  function EndVisit(cfg: Config, st: State, v: Visit): State
    requires WellFormed(cfg.def)
  {
    EnterHead(cfg, st.(nextVisit := st.nextVisit[v.role := v.index + 1]))
  }

  /** A worker out of models hands control back; the orchestrator cannot. */
  function Exhaust(cfg: Config, st: State, v: Visit): State
    requires WellFormed(cfg.def)
  {
    if v.role == cfg.def.orchestrator then Halt(st, ExitFailed)
    else
      match Reduce(st.cp, Handoff(cfg.def.orchestrator, false), cfg.def, At(v.role), UNAVAILABLE_FILE)
      case Accepted(cp, record) => EndVisit(cfg, Advance(st, cp, record), v)
      case _ => Broken(st)
  }

  function EnterSpawn(cfg: Config, st: State, v: Visit): State
    requires WellFormed(cfg.def)
  {
    if OutOfModels(cfg, v) then Exhaust(cfg, st, v) else st.(phase := Spawning(v))
  }

  // ---------------------------------------------------------------- one visit

  function OnSpawn(cfg: Config, st: State, v: Visit, spawned: bool, shared: Option<string>): State
    requires WellFormed(cfg.def)
  {
    if spawned then
      var s := Session(st.minted, shared);
      match SessionStarted(st.cp, v.role, s.id, s.SessionFile())
      case LifecycleError => Broken(st)
      case LifecycleOk(cp) =>
        Write(st, [Started(v.role, v.index, st.cp.current, s.Identity(), st.parent), Snapshot(cp)])
        .(cp := cp, parent := Some(s.id), minted := st.minted + 1, phase := Prompting(Live(v, s, st.parent, 0)))
    else if v.model > 0 then
      Halt(Write(st, [Terminal(Failed(FallbackStartFailed), v.role, v.index, st.cp.current,
                               Ident(None, FALLBACK_FILE), st.parent, 0)]), ExitFailed)
    else
      Halt(st, Thrown(SpawnThrew))
  }

  /** Retry, fall back, or give up after a failed session. */
  function AfterFailure(cfg: Config, st: State, v: Visit, reason: Option<HostReason>): State
    requires WellFormed(cfg.def)
  {
    if reason != Some(ModelFailure) || CapReached(cfg, st.log, 0) then Halt(st, ExitFailed)
    else if v.retry < Retries(cfg, v) then
      EnterSpawn(cfg, Write(st, [ModelRetry(v.role, v.retry + 1, Retries(cfg, v))]), v.(retry := v.retry + 1))
    else
      var st1 := if v.model + 1 < |Models(cfg, v.role)| then Write(st, [ModelFallback(v.role, v.model + 1)]) else st;
      EnterSpawn(cfg, st1, v.(model := v.model + 1, retry := 0))
  }

  // ---------------------------------------------------------------- one prompt

  function Fail(cfg: Config, st: State, x: Live, cause: Cause, cost: nat, reason: Option<HostReason>): State
    requires WellFormed(cfg.def)
  {
    match Close(st, x, Failed(cause), cost)
    case None => Broken(st)
    case Some(closed) => AfterFailure(cfg, closed, x.visit, reason)
  }

  function FailAndStop(st: State, x: Live, cause: Cause, cost: nat, exit: Exit): State {
    match Close(st, x, Failed(cause), cost)
    case None => Broken(st)
    case Some(closed) => Halt(closed, exit)
  }

  /** `forceRunCostCapEnd` with the orchestrator's own terminal first. */
  function ForceClose(cfg: Config, st: State, x: Live, cost: nat): State
    requires WellFormed(cfg.def)
  {
    match Close(st, x, Ended, cost)
    case None => Broken(st)
    case Some(closed) => ForceEnd(cfg, closed)
  }

  /** `persistAcceptedTransition`: transition, snapshot, terminal, snapshot. */
  function Commit(cfg: Config, st: State, x: Live, cost: nat, cp: Checkpoint, record: TransitionRecord): State
    requires WellFormed(cfg.def)
  {
    var moved := Advance(st, cp, record);
    match Close(moved, x, Ended, cost)
    case None => Broken(moved)
    case Some(closed) =>
      if closed.cp.current == Done then Halt(closed, ExitDone) else EndVisit(cfg, closed, x.visit)
  }

  function Decide(cfg: Config, st: State, x: Live, t: Turn, ev: MachineEvent): State
    requires WellFormed(cfg.def)
  {
    match Reduce(st.cp, ev, cfg.def, At(x.visit.role), x.session.SessionFile())
    case Broken => Broken(st)
    case Rejected(_, _, record) => Write(st, [Transition(record)])
    case Accepted(cp, record) =>
      if cfg.guarded && x.visit.role == cfg.def.orchestrator && ev == End(ByRole) then
        if t.guard == GuardFatal then FailAndStop(st, x, GuardCleanupUnconfirmed, t.usage, ExitFailed)
        else if t.guard == GuardAborted || t.abortRequested then
          FailAndStop(st, x, FromHost(UserAborted), t.usage, ExitAborted)
        else if t.guard == GuardOutOfBudget then FailAndStop(st, x, GuardExhausted, t.usage, ExitFailed)
        else if t.guard == GuardRetry || t.lateGuidance then st
        else Commit(cfg, st, x, t.usage, cp, record)
      else
        Commit(cfg, st, x, t.usage, cp, record)
  }

  /** A captured event: cost cap first, then the host's reason, then the machine. */
  function OnEmission(cfg: Config, st: State, x: Live, t: Turn, ev: MachineEvent): State
    requires WellFormed(cfg.def)
  {
    var breached := CapReached(cfg, st.log, t.usage);
    var hub := x.visit.role == cfg.def.orchestrator;
    var settles := breached && (hub || ev.Handoff?);
    if breached && hub && t.settled != Some(DelegationFailed) then
      ForceClose(cfg, st, x, t.usage)
    else
      var st1 := if settles && !hub && t.settled != Some(DelegationFailed) then st.(forced := true) else st;
      var reason := if settles then t.settled else t.after;
      if reason.Some? then Fail(cfg, st1, x, FromHost(reason.value), t.usage, reason)
      else if t.error == ChildExit then Fail(cfg, st1, x, RpcChildExit, t.usage, None)
      else if t.pendingChildren || (ev.End? && t.guidance) || (!cfg.v2 && ev.Handoff? && !t.envelopeOk) then st1
      else Decide(cfg, st1, x, t, ev)
  }

  function OnTurn(cfg: Config, st: State, x: Live, t: Turn): State
    requires WellFormed(cfg.def)
  {
    if t.before == Some(UserAborted) || t.after == Some(UserAborted) then
      FailAndStop(st, x, FromHost(UserAborted), t.usage, ExitAborted)
    else if t.error == OtherError && t.after.None? then
      Halt(st, Thrown(PromptThrew))
    else
      match ValidateEmission(cfg, x.visit.role, t.captures)
      case Emitted(ev) => OnEmission(cfg, st, x, t, ev)
      case Breach(cause) =>
        if t.after.None? && t.error != ChildExit && cause == NoEmission && x.recoveries < MAX_RECOVERY_PROMPTS then
          st.(phase := Prompting(x.(recoveries := x.recoveries + 1)))
        else if t.after.Some? then Fail(cfg, st, x, FromHost(t.after.value), t.usage, t.after)
        else Fail(cfg, st, x, if t.error == ChildExit then RpcChildExit else cause, t.usage, None)
  }

  // ---------------------------------------------------------------- recovery

  function LatestSnapshot(log: seq<Record>): Option<Checkpoint> {
    if log == [] then None
    else
      var r := log[|log| - 1];
      if r.Snapshot? then Some(r.checkpoint) else LatestSnapshot(log[..|log| - 1])
  }

  predicate StartMatches(r: Record, a: Active) {
    r.Started? &&
    (r.ident.logical == Some(a.id) || (r.ident.logical.None? && r.ident.file == a.file))
  }

  /** The latest start naming the session, by logical id or, for legacy records, by file. */
  function LatestStart(log: seq<Record>, a: Active): Option<nat> {
    if log == [] then None
    else if StartMatches(log[|log| - 1], a) then Some(|log| - 1)
    else LatestStart(log[..|log| - 1], a)
  }

  predicate TerminalMatches(r: Record, started: Record, a: Active)
    requires started.Started?
  {
    r.Terminal? &&
    if started.ident.logical.Some? then r.ident.logical == started.ident.logical
    else r.ident.logical.None? && r.ident.file == a.file
  }

  predicate HasTerminal(log: seq<Record>, from: nat, a: Active)
    requires from < |log| && log[from].Started?
  {
    exists k :: from < k < |log| && TerminalMatches(log[k], log[from], a)
  }

  /** `reconcileCrash`: the records it appends; the last snapshot is what the run resumes from. */
  function Reconciliation(log: seq<Record>, cp: Checkpoint): seq<Record>
  {
    if cp.active.None? then []
    else
      var a := cp.active.value;
      match LatestStart(log, a)
      case None => []
      case Some(i) =>
        LatestStartIsStart(log, a);
        var cleared := cp.(active := None);
        if HasTerminal(log, i, a) then [Snapshot(cleared)]
        else [
          Terminal(Failed(LostInCrash), a.role, log[i].visitIndex, cp.current,
                   Ident(log[i].ident.logical, a.file), log[i].parent, 0),
          Snapshot(cleared)]
  }

  lemma LatestStartIsStart(log: seq<Record>, a: Active)
    ensures var i := LatestStart(log, a);
            if i.Some? then
              && i.value < |log| && StartMatches(log[i.value], a)
              && forall k :: i.value < k < |log| ==> !StartMatches(log[k], a)
            else forall k :: 0 <= k < |log| ==> !StartMatches(log[k], a)
  {
    if log != [] && !StartMatches(log[|log| - 1], a) {
      LatestStartIsStart(log[..|log| - 1], a);
    }
  }

  /** `nextVisitIndexes`: one past the highest started index of each role. */
  function NextVisitIndexes(log: seq<Record>): map<Role, nat> {
    if log == [] then map[]
    else
      var rest := NextVisitIndexes(log[..|log| - 1]);
      var r := log[|log| - 1];
      if !r.Started? || (r.role in rest && r.visitIndex < rest[r.role]) then rest
      else rest[r.role := r.visitIndex + 1]
  }

  function Cut(log: seq<Record>, keep: nat): seq<Record> {
    if keep >= |log| then log else if keep == 0 then log[..1] else log[..keep]
  }

  /** The process that finds `log` on disk: reconcile, then enter the loop. */
  function Resume(cfg: Config, log: seq<Record>, minted: nat): State
    requires WellFormed(cfg.def)
  {
    match LatestSnapshot(log)
    case None => State(Initial(cfg.def), log, None, false, map[], minted, Stopped(Thrown(NoCheckpoint)))
    case Some(cp) =>
      var whole := log + Reconciliation(log, cp);
      var resumed := LatestSnapshot(whole);
      EnterHead(cfg, State(if resumed.Some? then resumed.value else cp, whole, None, false,
                           NextVisitIndexes(whole), minted, Stopped(ExitFailed)))
  }

  // ---------------------------------------------------------------- runs

  function Begin(cfg: Config): State
    requires WellFormed(cfg.def)
  {
    var cp := Initial(cfg.def);
    EnterHead(cfg, State(cp, [Snapshot(cp)], None, false, map[], 0, Stopped(ExitFailed)))
  }

  function Step(cfg: Config, st: State, answer: Answer): State
    requires WellFormed(cfg.def)
  {
    match answer
    case Crash(keep) => Resume(cfg, Cut(st.log, keep), st.minted)
    case Reply(spawned, shared, turn) =>
      match st.phase
      case Spawning(v) => OnSpawn(cfg, st, v, spawned, shared)
      case Prompting(x) => OnTurn(cfg, st, x, turn)
      case Stopped(_) => st
  }

  function Play(cfg: Config, st: State, tape: seq<Answer>): State
    requires WellFormed(cfg.def)
  {
    if tape == [] then st
    else Step(cfg, Play(cfg, st, tape[..|tape| - 1]), tape[|tape| - 1])
  }

  /** The state of a fresh run after the host has answered `tape`. */
  function Run(cfg: Config, tape: seq<Answer>): State
    requires WellFormed(cfg.def)
  {
    Play(cfg, Begin(cfg), tape)
  }

  predicate CrashFree(tape: seq<Answer>) {
    forall i :: 0 <= i < |tape| ==> tape[i].Reply?
  }

  lemma RunMore(cfg: Config, tape: seq<Answer>, answer: Answer)
    requires WellFormed(cfg.def)
    ensures Run(cfg, tape + [answer]) == Step(cfg, Run(cfg, tape), answer)
  {
    assert (tape + [answer])[..|tape|] == tape;
  }

  lemma PlaySplit(cfg: Config, st: State, a: seq<Answer>, b: seq<Answer>)
    requires WellFormed(cfg.def)
    ensures Play(cfg, st, a + b) == Play(cfg, Play(cfg, st, a), b)
  {
    if b == [] {
      assert a + b == a;
    } else {
      var n := |b| - 1;
      assert (a + b)[..|a + b| - 1] == a + b[..n];
      PlaySplit(cfg, st, a, b[..n]);
    }
  }
}
