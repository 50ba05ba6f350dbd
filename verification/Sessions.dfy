/**
 * What the loop writes around a session, in any history: its start and parent,
 * the records of its accepted event, and how often it is asked again.
 */
module Sessions {
  import opened Wrappers
  import opened Machine
  import opened Protocol
  import opened Ledger
  import opened Trail
  import opened Invariants
  import opened Bounds
  import opened Histories
  import opened Verdicts

  // ---------------------------------------------------------------- an accepted event

  /** An event that comes through to the machine and past the guard is committed. */
  lemma DeliveredIsCommitted(cfg: Config, st: State, x: Live, t: Turn, ev: MachineEvent)
    requires Prompted(cfg, st, x) && Delivered(cfg, st, x.visit.role, t, ev)
    requires Allows(cfg.def, st.cp, x.visit.role, ev) && (Guarded(cfg, x.visit.role, ev) ==> GuardLets(t))
    ensures var r := Reduce(st.cp, ev, cfg.def, At(x.visit.role), x.session.SessionFile());
            && r.Accepted?
            && OnTurn(cfg, st, x, t) ==
               Commit(cfg, Due(cfg, st, x.visit.role, t, ev), x, t.usage, r.checkpoint, r.record)
  {
    CapturesDecide(cfg, x.visit.role, t.captures);
    AllowsDecides(cfg.def, st.cp, x.visit.role, ev, x.session.SessionFile());
    hide Kept, ValidateEmission, Captures, Fail, FailAndStop, ForceClose, Commit, Reduce, CapReached, Allows;
  }

  /** What follows the four records of a commit. */
  ghost predicate GoesOn(cfg: Config, st: State, ev: MachineEvent, next: State) {
    var n := |st.log|;
    match ev
    case End(_) => |next.log| == n + 4 && next.phase == Stopped(ExitDone)
    case Handoff(target, _) =>
      if next.forced then
        && |next.log| == n + 6 && next.phase == Stopped(ExitDone)
        && next.log[n + 4].Transition? && next.log[n + 4].t.TransitionAccepted?
        && next.log[n + 4].t.event == End(ByRunCostCap) && next.log[n + 4].t.file == Synthesized("end:run-cost-cap")
        && next.log[n + 5] == Snapshot(next.cp)
      else
        && |next.log| == n + 4 && next.phase.Spawning? && next.phase.visit.role == target
        && next.phase.visit.model == 0 && next.phase.visit.retry == 0
  }

  /** The records of an accepted event: the transition, the session's end with its cost, a checkpoint after each. */
  ghost predicate Committed(cfg: Config, st: State, x: Live, t: Turn, ev: MachineEvent, next: State) {
    var n := |st.log|;
    && |next.log| >= n + 4 && st.log <= next.log
    && next.log[n].Transition? && next.log[n].t.TransitionAccepted? && next.log[n].t.event == ev
    && next.log[n].t.from == At(x.visit.role) && next.log[n].t.file == x.session.SessionFile()
    && next.log[n + 1].Snapshot? && next.log[n + 1].checkpoint.current == next.log[n].t.to
    && next.log[n + 1].checkpoint.active == st.cp.active
    && next.log[n + 2] == Terminal(Ended, x.visit.role, x.visit.index, next.log[n].t.to, x.session.Identity(),
                                   x.parent, t.usage)
    && next.log[n + 3] == Snapshot(next.log[n + 1].checkpoint.(active := None))
    && GoesOn(cfg, st, ev, next)
  }

  lemma CommitIsCommitted(cfg: Config, st: State, x: Live, t: Turn, ev: MachineEvent)
    requires Prompted(cfg, st, x) && (st.forced ==> x.visit.role != cfg.def.orchestrator)
    requires Reduce(st.cp, ev, cfg.def, At(x.visit.role), x.session.SessionFile()).Accepted?
    ensures var r := Reduce(st.cp, ev, cfg.def, At(x.visit.role), x.session.SessionFile());
            Committed(cfg, st, x, t, ev, Commit(cfg, st, x, t.usage, r.checkpoint, r.record))
  {
    hide Kept;
    var r := Reduce(st.cp, ev, cfg.def, At(x.visit.role), x.session.SessionFile());
    MovedTo(cfg, st, x, ev);
    hide Reduce;
    var moved := Advance(st, r.checkpoint, r.record);
    var closed := Close(moved, x, Ended, t.usage).value;
    assert closed.log == st.log + [Transition(r.record), Snapshot(r.checkpoint)]
                       + [closed.log[|st.log| + 2], closed.log[|st.log| + 3]];
  }

  lemma MovedTo(cfg: Config, st: State, x: Live, ev: MachineEvent)
    requires WellFormed(cfg.def) && st.cp.current == At(x.visit.role)
    requires Reduce(st.cp, ev, cfg.def, At(x.visit.role), x.session.SessionFile()).Accepted?
    ensures var r := Reduce(st.cp, ev, cfg.def, At(x.visit.role), x.session.SessionFile());
            && r.record.TransitionAccepted? && r.record.event == ev && r.record.from == At(x.visit.role)
            && r.record.file == x.session.SessionFile() && r.record.to == r.checkpoint.current
            && r.checkpoint.active == st.cp.active
            && r.checkpoint.current == (if ev.End? then Done else At(ev.target))
            && (x.visit.role != cfg.def.orchestrator ==> ev == Handoff(cfg.def.orchestrator, ev.requestEnd))
  {}

  /** In any history an accepted event is committed whole. */
  lemma AcceptedIsCommitted(cfg: Config, tape: seq<Answer>, answer: Answer, ev: MachineEvent)
    requires Proper(cfg) && Run(cfg, tape).phase.Prompting? && answer.Reply?
    requires Accepts(First(Run(cfg, tape), Run(cfg, tape + [answer])), ev)
    ensures var st := Run(cfg, tape);
            Committed(cfg, st, st.phase.live, answer.turn, ev, Run(cfg, tape + [answer]))
  {
    hide Run, Kept, Verdict, OnTurn, Commit, Reduce, Captures, CapReached, First, Accepts, BaseOf, LiveOf, Committed,
      Allows;
    var st, t := Run(cfg, tape), answer.turn;
    var x := st.phase.live;
    PromptVerdict(cfg, tape, answer);
    PromptedHolds(cfg, tape);
    RunKeeps(cfg, tape);
    RunMore(cfg, tape, answer);
    var due := Due(cfg, st, x.visit.role, t, ev);
    TurnCommits(cfg, st, x, t, ev);
    SamePrompted(cfg, st, due, x);
    CommitIsCommitted(cfg, due, x, t, ev);
    SameCommitted(cfg, st, due, x, t, ev, Run(cfg, tape + [answer]));
  }

  lemma SamePrompted(cfg: Config, st: State, due: State, x: Live)
    requires Prompted(cfg, st, x) && due == st.(forced := due.forced)
    ensures Prompted(cfg, due, x)
  {}

  lemma SameCommitted(cfg: Config, st: State, due: State, x: Live, t: Turn, ev: MachineEvent, next: State)
    requires due == st.(forced := due.forced) && Committed(cfg, due, x, t, ev, next)
    ensures Committed(cfg, st, x, t, ev, next)
  {}

  lemma TurnCommits(cfg: Config, st: State, x: Live, t: Turn, ev: MachineEvent)
    requires Prompted(cfg, st, x) && Verdict(cfg, st, x, t, OnTurn(cfg, st, x, t))
    requires Accepts(First(st, OnTurn(cfg, st, x, t)), ev)
    ensures var r := Reduce(st.cp, ev, cfg.def, At(x.visit.role), x.session.SessionFile());
            && r.Accepted?
            && OnTurn(cfg, st, x, t) ==
               Commit(cfg, Due(cfg, st, x.visit.role, t, ev), x, t.usage, r.checkpoint, r.record)
  {
    hide Kept, OnTurn, Commit, Reduce, Captures, CapReached, First, Accepts, Allows;
    DeliveredIsCommitted(cfg, st, x, t, ev);
  }

  // ---------------------------------------------------------------- a spawn

  /** What the answer to a spawn writes, and where it leads. */
  ghost predicate SpawnedAs(cfg: Config, st: State, v: Visit, spawned: bool, shared: Option<string>, next: State) {
    if spawned then
      var id := st.minted;
      var file := if shared.Some? then Shared(shared.value) else Own(id);
      var named := if shared.Some? then Some(id) else None;
      && next.log == st.log + [Started(v.role, v.index, At(v.role), Ident(named, file), st.parent), Snapshot(next.cp)]
      && next.cp == st.cp.(active := Some(Active(id, v.role, file)))
      && next == st.(cp := next.cp, log := next.log, parent := Some(id), minted := id + 1,
                     phase := Prompting(Live(v, Session(id, shared), st.parent, 0)))
    else if v.model == 0 then
      next == st.(phase := Stopped(Thrown(SpawnThrew)))
    else
      next == st.(phase := Stopped(ExitFailed),
                  log := st.log + [Terminal(Failed(FallbackStartFailed), v.role, v.index, At(v.role),
                                            Ident(None, Synthesized("session-failed:fallback-start")), st.parent, 0)])
  }

  /** In any history a spawn starts the session it was asked for, or fails as the first or a later model does. */
  lemma SpawnVerdict(cfg: Config, tape: seq<Answer>, answer: Answer)
    requires Proper(cfg) && Run(cfg, tape).phase.Spawning? && answer.Reply?
    ensures var st := Run(cfg, tape);
            SpawnedAs(cfg, st, st.phase.visit, answer.spawned, answer.shared, Run(cfg, tape + [answer]))
  {
    hide Run, BaseOf, OutOfModels;
    RunKeeps(cfg, tape);
    RunMore(cfg, tape, answer);
  }

  // ---------------------------------------------------------------- asking again

  /** An answer that captured nothing, without an error or a reason. */
  predicate Silent(a: Answer) {
    a.Reply? && !Aborted(a.turn) && a.turn.captures == [] && a.turn.after.None? && a.turn.error == NoError
  }

  /**
   * A session that captures nothing is asked again exactly three times: the
   * fourth silent prompt since its start fails it for want of an emission.
   */
  lemma SilentSessionFails(cfg: Config, tape: seq<Answer>, start: Answer, a: Answer, b: Answer, c: Answer, d: Answer)
    requires Proper(cfg) && Run(cfg, tape).phase.Spawning? && start.Reply? && start.spawned
    requires Silent(a) && Silent(b) && Silent(c) && Silent(d)
    ensures var st := Run(cfg, tape + [start]);
            && st.phase.Prompting?
            && Run(cfg, tape + [start] + [a] + [b] + [c]) == st.(phase := Prompting(st.phase.live.(recoveries := 3)))
            && First(st, Run(cfg, tape + [start] + [a] + [b] + [c] + [d])) ==
               Some(Closing(st, st.phase.live, Failed(NoEmission), d.turn.usage))
  {
    hide Run, Kept, Verdict;
    SpawnVerdict(cfg, tape, start);
    SilentPrompts(cfg, tape + [start], a);
    SilentPrompts(cfg, tape + [start] + [a], b);
    SilentPrompts(cfg, tape + [start] + [a] + [b], c);
    var last := tape + [start] + [a] + [b] + [c];
    PromptVerdict(cfg, last, d);
    FailsSilent(cfg, Run(cfg, last), Run(cfg, last).phase.live, d, Run(cfg, last + [d]));
  }

  lemma FailsSilent(cfg: Config, st: State, x: Live, d: Answer, next: State)
    requires Silent(d) && x.recoveries >= 3 && Verdict(cfg, st, x, d.turn, next)
    ensures First(st, next) == Some(Closing(st, x, Failed(NoEmission), d.turn.usage))
  {
    assert forall ev :: !Captures(cfg, x.visit.role, d.turn.captures, ev);
    assert FailsFor(cfg, st, x, d.turn, NoEmission);
  }

  // ---------------------------------------------------------------- parents

  /** The session last started among the records from `since` up to `n`. */
  function LastStarted(log: seq<Record>, since: nat, n: nat): Option<nat>
    requires n <= |log|
    decreases n
  {
    if n <= since then None
    else if log[n - 1].Started? then SessionOf(log[n - 1].ident)
    else LastStarted(log, since, n - 1)
  }

  /** From record `since` on every start names the session before it as its parent. */
  ghost predicate Chained(log: seq<Record>, since: nat) {
    forall i: nat :: since <= i < |log| && log[i].Started? ==> log[i].parent == LastStarted(log, since, i)
  }

  ghost predicate ParentsHold(st: State, since: nat) {
    since <= |st.log| && Chained(st.log, since) && st.parent == LastStarted(st.log, since, |st.log|)
  }

  lemma {:induction false} SameLastStarted(log: seq<Record>, longer: seq<Record>, since: nat, n: nat)
    requires log <= longer && n <= |log|
    ensures LastStarted(longer, since, n) == LastStarted(log, since, n)
    decreases n
  {
    if n > since {
      SameLastStarted(log, longer, since, n - 1);
    }
  }

  lemma {:induction false} NoneStarted(log: seq<Record>, since: nat, m: nat, n: nat)
    requires since <= m <= n <= |log| && forall i :: m <= i < n ==> !log[i].Started?
    ensures LastStarted(log, since, n) == LastStarted(log, since, m)
    decreases n
  {
    if n > m {
      NoneStarted(log, since, m, n - 1);
    }
  }

  lemma ChainStays(log: seq<Record>, longer: seq<Record>, since: nat, from: nat)
    requires Chained(log, since) && log <= longer && since <= |log| <= from <= |longer|
    requires forall i :: from <= i < |longer| ==> !longer[i].Started?
    requires forall i: nat :: |log| <= i < from && longer[i].Started? ==>
               i == |log| && longer[i].parent == LastStarted(log, since, |log|)
    ensures Chained(longer, since)
  {
    forall i: nat | since <= i < |longer| && longer[i].Started?
      ensures longer[i].parent == LastStarted(longer, since, i)
    {
      SameLastStarted(log, longer, since, if i < |log| then i else |log|);
      assert i < |log| ==> log[i].Started?;
    }
  }

  lemma ParentStep(cfg: Config, tape: seq<Answer>, answer: Answer, since: nat)
    requires Proper(cfg) && answer.Reply? && ParentsHold(Run(cfg, tape), since)
    ensures ParentsHold(Run(cfg, tape + [answer]), since)
  {
    hide Run, Kept, Chained;
    var st, next := Run(cfg, tape), Run(cfg, tape + [answer]);
    RunMore(cfg, tape, answer);
    match st.phase
    case Spawning(v) =>
      SpawnVerdict(cfg, tape, answer);
      ChainStays(st.log, next.log, since, if answer.spawned then |st.log| + 1 else |st.log|);
      SameLastStarted(st.log, next.log, since, |st.log|);
      NoneStarted(next.log, since, if answer.spawned then |st.log| + 1 else |st.log|, |next.log|);
    case Prompting(x) =>
      PromptedHolds(cfg, tape);
      TurnTurned(cfg, st, x, answer.turn);
      DeferralIsExact(cfg, tape, answer);
      ChainStays(st.log, next.log, since, |st.log|);
      SameLastStarted(st.log, next.log, since, |st.log|);
      NoneStarted(next.log, since, |st.log|, |next.log|);
    case Stopped(_) =>
  }

  /**
   * After any history, each session a process starts names the one it started
   * before as its parent, and its first session none.
   */
  lemma {:induction false} ParentsFollowStarts(cfg: Config, tape: seq<Answer>, rest: seq<Answer>)
    requires Proper(cfg) && ProcessStarts(tape) && CrashFree(rest)
    ensures ParentsHold(Run(cfg, tape + rest), |Run(cfg, tape).log|)
    decreases |rest|
  {
    hide Run, ParentsHold;
    if rest == [] {
      assert tape + rest == tape;
      FirstParent(cfg, tape);
    } else {
      var n := |rest| - 1;
      ParentsFollowStarts(cfg, tape, rest[..n]);
      assert tape + rest == tape + rest[..n] + [rest[n]];
      ParentStep(cfg, tape + rest[..n], rest[n], |Run(cfg, tape).log|);
    }
  }

  lemma FirstParent(cfg: Config, tape: seq<Answer>)
    requires Proper(cfg) && ProcessStarts(tape)
    ensures ParentsHold(Run(cfg, tape), |Run(cfg, tape).log|)
  {
    if tape != [] {
      var n := |tape| - 1;
      assert tape == tape[..n] + [tape[n]];
      RunMore(cfg, tape[..n], tape[n]);
    }
  }
}
