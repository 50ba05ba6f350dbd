/**
 * The pure hub-and-spoke reducer: transitions (`reduce`), session lifecycle
 * (`reduceLifecycle`) and the retry guidance built beside them.
 *
 * Timestamps, run ids and payload metadata flow through the reducer untouched
 * and are not part of the model; everything the reducer branches on is.
 */
module Machine {
  import opened Wrappers

  type Role = string

  /** The machine's position: one role, or the terminal marker. */
  datatype Place = At(role: Role) | Done

  /** A session file: minted for one session, shared by several, or a sentinel. */
  datatype File = Own(id: nat) | Shared(name: string) | Synthesized(tag: string)

  datatype Definition = Definition(
    orchestrator: Role,
    workers: seq<Role>,
    maxVisits: map<Role, nat>,
    endRequestRoles: Option<seq<Role>>)

  datatype EndRequest = EndRequest(role: Role, file: File)

  datatype Active = Active(id: nat, role: Role, file: File)

  datatype Checkpoint = Checkpoint(
    current: Place,
    visits: map<Role, nat>,
    endRequest: Option<EndRequest>,
    active: Option<Active>)

  datatype Authority = ByRole | ByRunCostCap

  datatype MachineEvent = Handoff(target: Role, requestEnd: bool) | End(authority: Authority)

  datatype RejectReason = IllegalEvent | GuardFailed | EndRequestUnauthorized | EndRequestRequired

  datatype LegalTargets = LegalTargets(handoff: seq<Role>, end: bool)

  datatype TransitionRecord =
    | TransitionAccepted(
        from: Place, to: Place, event: MachineEvent, endRequestedBy: Option<Role>,
        who: Place, effects: seq<string>, file: File)
    | TransitionRejected(
        at: Place, event: MachineEvent, reason: RejectReason, targets: LegalTargets,
        who: Place, file: File)

  /** `Broken` stands for a thrown invariant error. */
  datatype Reduction =
    | Accepted(checkpoint: Checkpoint, record: TransitionRecord)
    | Rejected(checkpoint: Checkpoint, reason: RejectReason, record: TransitionRecord)
    | Broken

  // ---------------------------------------------------------------- definitions

  predicate LineTerminator(c: char) {
    c == '\n' || c == '\r' || c == '\U{2028}' || c == '\U{2029}'
  }

  /** A name the effect text can carry: not empty and on one line. */
  predicate PlainName(w: Role) {
    w != "" && forall i :: 0 <= i < |w| ==> !LineTerminator(w[i])
  }

  predicate Distinct(names: seq<Role>) {
    forall i, j :: 0 <= i < j < |names| ==> names[i] != names[j]
  }

  /** What manifest validation promises of a definition. */
  predicate WellFormed(def: Definition) {
    && def.orchestrator !in def.workers
    && Distinct(def.workers)
    && (forall w :: w in def.workers ==> w in def.maxVisits)
  }

  function Initial(def: Definition): Checkpoint {
    Checkpoint(At(def.orchestrator), map w | w in def.workers :: 0, None, None)
  }

  function Count(visits: map<Role, nat>, w: Role): nat {
    if w in visits then visits[w] else 0
  }

  // ---------------------------------------------------------------- effect text

  const EFFECT_PREFIX := "visit_count["
  const EFFECT_SUFFIX := "] += 1"

  function VisitEffect(w: Role): string {
    EFFECT_PREFIX + w + EFFECT_SUFFIX
  }

  /** The anchored match of the effect text; `.` does not match a line terminator. */
  function ParseEffect(e: string): Option<Role> {
    if |e| > 18 && e[..12] == EFFECT_PREFIX && e[|e| - 6..] == EFFECT_SUFFIX &&
       PlainName(e[12..|e| - 6])
    then Some(e[12..|e| - 6])
    else None
  }

  /** The printed role is read back exactly when its name is plain, and never as another. */
  lemma ParseInvertsPrint(w: Role)
    ensures ParseEffect(VisitEffect(w)) == if PlainName(w) then Some(w) else None
  {
    var e := VisitEffect(w);
    assert |e| == 18 + |w|;
    assert e[..12] == EFFECT_PREFIX;
    assert e[|e| - 6..] == EFFECT_SUFFIX;
    assert e[12..|e| - 6] == w;
  }

  function Normalized(def: Definition, visits: map<Role, nat>): map<Role, nat> {
    map w | w in def.workers :: Count(visits, w)
  }

  function ApplyEffects(visits: map<Role, nat>, effects: seq<string>): map<Role, nat>
    decreases |effects|
  {
    if effects == [] then visits
    else
      var parsed := ParseEffect(effects[0]);
      var next := if parsed.Some? then visits[parsed.value := Count(visits, parsed.value) + 1] else visits;
      ApplyEffects(next, effects[1..])
  }

  /** The copy loop and the effect loop of `accept`, over a local record. */
  method CopyCounts(def: Definition, visits: map<Role, nat>, effects: seq<string>)
    returns (counts: map<Role, nat>)
    ensures counts == ApplyEffects(Normalized(def, visits), effects)
  {
    counts := map[];
    for i := 0 to |def.workers|
      invariant counts == map w | w in def.workers[..i] :: Count(visits, w)
    {
      counts := counts[def.workers[i] := Count(visits, def.workers[i])];
    }
    assert def.workers[..|def.workers|] == def.workers;
    for i := 0 to |effects|
      invariant ApplyEffects(counts, effects[i..]) == ApplyEffects(Normalized(def, visits), effects)
    {
      assert effects[i..][0] == effects[i] && effects[i..][1..] == effects[i + 1..];
      var parsed := ParseEffect(effects[i]);
      if parsed.Some? {
        counts := counts[parsed.value := Count(counts, parsed.value) + 1];
      }
    }
  }

  // ---------------------------------------------------------------- legal targets

  function DeclaredTargets(at: Place, def: Definition): LegalTargets {
    if at == Done then LegalTargets([], false)
    else if at == At(def.orchestrator) then LegalTargets(def.workers, def.endRequestRoles.None?)
    else LegalTargets([def.orchestrator], false)
  }

  function UnderCap(workers: seq<Role>, visits: map<Role, nat>, caps: map<Role, nat>): seq<Role>
    requires forall w :: w in workers ==> w in caps
  {
    if workers == [] then []
    else
      var w := workers[|workers| - 1];
      var rest := UnderCap(workers[..|workers| - 1], visits, caps);
      if Count(visits, w) < caps[w] then rest + [w] else rest
  }

  function AvailableTargets(cp: Checkpoint, def: Definition): LegalTargets
    requires WellFormed(def)
  {
    var base := DeclaredTargets(cp.current, def);
    if cp.current == At(def.orchestrator) then
      LegalTargets(UnderCap(base.handoff, cp.visits, def.maxVisits), base.end || cp.endRequest.Some?)
    else
      base
  }

  /** `computeNextCandidates`, shown to the orchestrator with its remaining budget. */
  function NextCandidates(cp: Checkpoint, def: Definition, remaining: Option<int>): seq<Role>
    requires WellFormed(def)
  {
    if cp.current == Done || (remaining.Some? && remaining.value <= 0) then []
    else UnderCap(def.workers, cp.visits, def.maxVisits)
  }

  /** The push loop behind both lists. */
  method CollectUnderCap(workers: seq<Role>, visits: map<Role, nat>, caps: map<Role, nat>)
    returns (allowed: seq<Role>)
    requires forall w :: w in workers ==> w in caps
    ensures allowed == UnderCap(workers, visits, caps)
    ensures forall w :: w in allowed <==> w in workers && Count(visits, w) < caps[w]
  {
    allowed := [];
    for i := 0 to |workers|
      invariant allowed == UnderCap(workers[..i], visits, caps)
    {
      var w := workers[i];
      assert workers[..i + 1][..i] == workers[..i];
      if Count(visits, w) < caps[w] {
        allowed := allowed + [w];
      }
    }
    assert workers[..|workers|] == workers;
    UnderCapMembers(workers, visits, caps);
  }

  lemma UnderCapMembers(workers: seq<Role>, visits: map<Role, nat>, caps: map<Role, nat>)
    requires forall w :: w in workers ==> w in caps
    ensures forall w :: w in UnderCap(workers, visits, caps) <==> w in workers && Count(visits, w) < caps[w]
  {
    if workers != [] {
      var n := |workers| - 1;
      UnderCapMembers(workers[..n], visits, caps);
      assert workers == workers[..n] + [workers[n]];
    }
  }

  // ---------------------------------------------------------------- reduce

  function Accept(
    cp: Checkpoint, ev: MachineEvent, def: Definition, who: Place, file: File,
    to: Place, effects: seq<string>, endRequest: Option<EndRequest>): Reduction
  {
    var visits := ApplyEffects(Normalized(def, cp.visits), effects);
    Accepted(
      Checkpoint(to, visits, endRequest, cp.active),
      TransitionAccepted(
        cp.current, to, ev,
        if ev == End(ByRole) && cp.endRequest.Some? then Some(cp.endRequest.value.role) else None,
        who, effects, file))
  }

  function Reject(
    cp: Checkpoint, ev: MachineEvent, def: Definition, who: Place, file: File,
    reason: RejectReason): Reduction
    requires WellFormed(def)
  {
    Rejected(
      cp.(visits := Normalized(def, cp.visits)),
      reason,
      TransitionRejected(cp.current, ev, reason, AvailableTargets(cp, def), who, file))
  }

  function Reduce(cp: Checkpoint, ev: MachineEvent, def: Definition, who: Place, file: File): Reduction
    requires WellFormed(def)
  {
    if who != cp.current then Broken
    else if cp.current == Done then Reject(cp, ev, def, who, file, IllegalEvent)
    else if cp.current == At(def.orchestrator) then FromOrchestrator(cp, ev, def, who, file)
    else FromWorker(cp, ev, def, who, file)
  }

  function FromOrchestrator(cp: Checkpoint, ev: MachineEvent, def: Definition, who: Place, file: File): Reduction
    requires WellFormed(def)
  {
    match ev
    case End(authority) =>
      if authority == ByRole && def.endRequestRoles.Some? && cp.endRequest.None? then
        Reject(cp, ev, def, who, file, EndRequestRequired)
      else
        Accept(cp, ev, def, who, file, Done, [], None)
    case Handoff(target, _) =>
      if target !in def.workers then Reject(cp, ev, def, who, file, IllegalEvent)
      else if Count(cp.visits, target) >= def.maxVisits[target] then
        Reject(cp, ev, def, who, file, GuardFailed)
      else
        Accept(cp, ev, def, who, file, At(target), [VisitEffect(target)], None)
  }

  predicate MayRequestEnd(def: Definition, role: Role) {
    def.endRequestRoles.Some? && role in def.endRequestRoles.value
  }

  function FromWorker(cp: Checkpoint, ev: MachineEvent, def: Definition, who: Place, file: File): Reduction
    requires WellFormed(def) && cp.current.At?
  {
    if ev.Handoff? && ev.target == def.orchestrator then
      if ev.requestEnd && !MayRequestEnd(def, cp.current.role) then
        Reject(cp, ev, def, who, file, EndRequestUnauthorized)
      else
        Accept(cp, ev, def, who, file, At(def.orchestrator), [],
               if ev.requestEnd then Some(EndRequest(cp.current.role, file)) else cp.endRequest)
    else
      Reject(cp, ev, def, who, file, IllegalEvent)
  }

  // ---------------------------------------------------------------- lifecycle

  datatype Lifecycle = LifecycleOk(checkpoint: Checkpoint) | LifecycleError

  function SessionStarted(cp: Checkpoint, role: Role, id: nat, file: File): Lifecycle {
    if At(role) != cp.current || cp.active.Some? then LifecycleError
    else LifecycleOk(cp.(active := Some(Active(id, role, file))))
  }

  /** Identity is checked against the live session, not the current role. */
  function SessionTerminal(cp: Checkpoint, role: Role, id: nat): Lifecycle {
    if cp.active.None? || id != cp.active.value.id || role != cp.active.value.role then LifecycleError
    else LifecycleOk(cp.(active := None))
  }

  /** A session that starts and ends leaves no trace, and only its own identity ends it. */
  lemma LifecycleRoundTrip(cp: Checkpoint, role: Role, id: nat, file: File, otherRole: Role, otherId: nat)
    ensures var started := SessionStarted(cp, role, id, file);
            && (started.LifecycleOk? <==> cp.current == At(role) && cp.active.None?)
            && (started.LifecycleOk? ==>
                  && SessionTerminal(started.checkpoint, role, id) == LifecycleOk(cp)
                  && SessionStarted(started.checkpoint, otherRole, otherId, file).LifecycleError?
                  && (SessionTerminal(started.checkpoint, otherRole, otherId).LifecycleOk? <==>
                        otherRole == role && otherId == id))
    ensures cp.active.None? ==> SessionTerminal(cp, role, id).LifecycleError?
  {
    var started := SessionStarted(cp, role, id, file);
    if started.LifecycleOk? {
      assert started.checkpoint.(active := None) == cp;
    }
  }

  // ---------------------------------------------------------------- properties of one reduction

  /** Holds of every checkpoint a run can reach. */
  ghost predicate Sound(def: Definition, cp: Checkpoint) {
    && (cp.current.At? && cp.current.role != def.orchestrator ==>
          && cp.current.role in def.workers && Count(def.maxVisits, cp.current.role) > 0
          && (PlainName(cp.current.role) ==> Count(cp.visits, cp.current.role) > 0))
    && cp.visits.Keys == (set w | w in def.workers)
    && (forall w :: w in def.workers ==> w in def.maxVisits && cp.visits[w] <= def.maxVisits[w])
    && (cp.endRequest.Some? ==>
          cp.current == At(def.orchestrator) && MayRequestEnd(def, cp.endRequest.value.role))
  }

  lemma InitialSound(def: Definition)
    requires WellFormed(def)
    ensures Sound(def, Initial(def))
  {
  }

  lemma NormalizedIdentity(def: Definition, visits: map<Role, nat>)
    requires visits.Keys == (set w | w in def.workers)
    ensures Normalized(def, visits) == visits
  {
  }

  lemma ApplyOne(visits: map<Role, nat>, w: Role)
    ensures ApplyEffects(visits, [VisitEffect(w)]) ==
            if PlainName(w) then visits[w := Count(visits, w) + 1] else visits
  {
    ParseInvertsPrint(w);
    assert [VisitEffect(w)][1..] == [];
  }

  /** The counts after a dispatch: a name the effect text cannot carry is not counted. */
  function Counted(visits: map<Role, nat>, target: Role): map<Role, nat> {
    if PlainName(target) then visits[target := Count(visits, target) + 1] else visits
  }

  /** What one acceptance does to a reachable checkpoint, without the reducer's own text. */
  ghost predicate Moves(def: Definition, cp: Checkpoint, ev: MachineEvent, file: File, next: Checkpoint) {
    && next.active == cp.active
    && match ev
       case End(_) => cp.current == At(def.orchestrator) && next.current == Done &&
                      next.visits == cp.visits && next.endRequest == None
       case Handoff(target, requestEnd) =>
         next.current == At(target) &&
         if cp.current == At(def.orchestrator) then
           && target in def.workers && target in def.maxVisits
           && Count(cp.visits, target) < def.maxVisits[target]
           && next.visits == Counted(cp.visits, target)
           && next.endRequest == None
         else
           && target == def.orchestrator && cp.current.At? && next.visits == cp.visits
           && (requestEnd ==> MayRequestEnd(def, cp.current.role))
           && next.endRequest == (if requestEnd then Some(EndRequest(cp.current.role, file)) else None)
  }

  lemma MoveKeepsSound(def: Definition, cp: Checkpoint, ev: MachineEvent, file: File, next: Checkpoint)
    requires WellFormed(def) && Sound(def, cp) && Moves(def, cp, ev, file, next)
    ensures Sound(def, next)
  {}

  /**
   * Acceptance from a reachable checkpoint is one of three moves, keeps the
   * checkpoint reachable, and rejection changes nothing.
   */
  lemma ReduceMoves(def: Definition, cp: Checkpoint, ev: MachineEvent, who: Place, file: File)
    requires WellFormed(def) && Sound(def, cp)
    ensures var r := Reduce(cp, ev, def, who, file);
            && (r.Broken? <==> who != cp.current)
            && (r.Rejected? ==> r.checkpoint == cp)
            && (r.Accepted? ==>
                  && Moves(def, cp, ev, file, r.checkpoint)
                  && Sound(def, r.checkpoint)
                  && r.record == TransitionAccepted(
                       cp.current, r.checkpoint.current, ev,
                       (if ev == End(ByRole) && cp.endRequest.Some? then Some(cp.endRequest.value.role) else None),
                       who, r.record.effects, file)
                  && r.record.effects == (if cp.current == At(def.orchestrator) && ev.Handoff?
                                          then ["visit_count[" + ev.target + "] += 1"] else [])
                  && r.checkpoint.visits == ApplyEffects(cp.visits, r.record.effects))
  {
    NormalizedIdentity(def, cp.visits);
    assert ApplyEffects(cp.visits, []) == cp.visits;
    if ev.Handoff? {
      ApplyOne(cp.visits, ev.target);
      assert VisitEffect(ev.target) == "visit_count[" + ev.target + "] += 1";
    }
    hide Normalized, ApplyEffects, AvailableTargets, VisitEffect, Sound;
    var r := Reduce(cp, ev, def, who, file);
    if r.Accepted? {
      MoveKeepsSound(def, cp, ev, file, r.checkpoint);
    }
  }

  /**
   * The guard is only as good as the effect text: an accepted dispatch raises
   * the count of its target exactly when the target's name is plain.
   */
  lemma DispatchCountsIffPlain(def: Definition, cp: Checkpoint, w: Role, requestEnd: bool, file: File)
    requires WellFormed(def) && cp.current == At(def.orchestrator)
    requires w in def.workers && Count(cp.visits, w) < def.maxVisits[w]
    ensures var r := Reduce(cp, Handoff(w, requestEnd), def, cp.current, file);
            r.Accepted? && (Count(r.checkpoint.visits, w) == Count(cp.visits, w) + 1 <==> PlainName(w))
  {
    ApplyOne(Normalized(def, cp.visits), w);
  }

  /** A two-line worker name is accepted for ever: its count stays below any cap above zero. */
  lemma TwoLineNameEvadesItsCap(n: nat)
    ensures var def := Definition("o", ["a\nb"], map["a\nb" := 1], None);
            var r := Reduce(Initial(def), Handoff("a\nb", false), def, At("o"), Own(n));
            r.Accepted? && r.checkpoint.visits == Initial(def).visits && !PlainName("a\nb")
  {
    var def := Definition("o", ["a\nb"], map["a\nb" := 1], None);
    assert "a\nb"[1] == '\n';
    ApplyOne(Normalized(def, Initial(def).visits), "a\nb");
  }

  /** The table of transitions, caps and authority aside. */
  predicate Declared(at: Place, def: Definition, ev: MachineEvent) {
    match ev
    case Handoff(target, _) => target in DeclaredTargets(at, def).handoff
    case End(_) => at == At(def.orchestrator)
  }

  /** Every rejection names its own reason: off the table, over the cap, or without authority. */
  lemma ReasonsAreExact(def: Definition, cp: Checkpoint, ev: MachineEvent, file: File)
    requires WellFormed(def)
    ensures var r := Reduce(cp, ev, def, cp.current, file);
            var hub := cp.current == At(def.orchestrator);
            var targets := AvailableTargets(cp, def);
            && !r.Broken?
            && (r.Rejected? ==> r.record == TransitionRejected(cp.current, ev, r.reason, targets, cp.current, file))
            && (r.Rejected? && r.reason == IllegalEvent <==> !Declared(cp.current, def, ev))
            && (r.Rejected? && r.reason == GuardFailed <==>
                  Declared(cp.current, def, ev) && hub && ev.Handoff? && ev.target !in targets.handoff)
            && (r.Rejected? && r.reason == EndRequestRequired <==> hub && ev == End(ByRole) && !targets.end)
            && (r.Rejected? && r.reason == EndRequestUnauthorized <==>
                  Declared(cp.current, def, ev) && !hub && ev.requestEnd && !MayRequestEnd(def, cp.current.role))
  {
    UnderCapMembers(def.workers, cp.visits, def.maxVisits);
    hide ApplyEffects, Normalized, UnderCap, VisitEffect;
  }

  /**
   * The retry guidance is exact: it lists the plain handoffs and the role end
   * the reducer would accept, nothing else and nothing less.
   */
  lemma GuidanceIsExact(def: Definition, cp: Checkpoint, target: Role, file: File)
    requires WellFormed(def)
    ensures target in AvailableTargets(cp, def).handoff <==>
            Reduce(cp, Handoff(target, false), def, cp.current, file).Accepted?
    ensures AvailableTargets(cp, def).end <==> Reduce(cp, End(ByRole), def, cp.current, file).Accepted?
    ensures cp.current == At(def.orchestrator) && target in AvailableTargets(cp, def).handoff ==>
            Reduce(cp, Handoff(target, true), def, cp.current, file).Accepted?
  {
    UnderCapMembers(def.workers, cp.visits, def.maxVisits);
  }

  /** At the orchestrator the run-memory candidates agree with the guidance while budget remains. */
  lemma CandidatesAgree(def: Definition, cp: Checkpoint, remaining: Option<int>)
    requires WellFormed(def) && cp.current == At(def.orchestrator)
    ensures NextCandidates(cp, def, remaining) ==
            if remaining.Some? && remaining.value <= 0 then [] else AvailableTargets(cp, def).handoff
    ensures Distinct(NextCandidates(cp, def, remaining))
    ensures forall w :: w in NextCandidates(cp, def, remaining) <==>
              (remaining.Some? ==> remaining.value > 0) && w in def.workers && Count(cp.visits, w) < def.maxVisits[w]
  {
    UnderCapDistinct(def.workers, cp.visits, def.maxVisits);
    UnderCapMembers(def.workers, cp.visits, def.maxVisits);
  }

  /** The guidance lists the workers in the order the definition does. */
  lemma {:induction false} GuidanceInOrder(workers: seq<Role>, visits: map<Role, nat>, caps: map<Role, nat>, m: nat,
      n: nat)
    requires forall w :: w in workers ==> w in caps
    requires m < n < |UnderCap(workers, visits, caps)|
    ensures exists i, k :: 0 <= i < k < |workers| && workers[i] == UnderCap(workers, visits, caps)[m] &&
                           workers[k] == UnderCap(workers, visits, caps)[n]
    decreases |workers|
  {
    var last := |workers| - 1;
    var front := UnderCap(workers[..last], visits, caps);
    if n == |front| {
      UnderCapMembers(workers[..last], visits, caps);
      assert front[m] in front;
      var i :| 0 <= i < last && workers[..last][i] == front[m];
      assert workers[i] == front[m] && workers[last] == UnderCap(workers, visits, caps)[n];
    } else {
      GuidanceInOrder(workers[..last], visits, caps, m, n);
      var i, k :| 0 <= i < k < last && workers[..last][i] == front[m] && workers[..last][k] == front[n];
      assert workers[i] == front[m] && workers[k] == front[n];
    }
  }

  lemma UnderCapDistinct(workers: seq<Role>, visits: map<Role, nat>, caps: map<Role, nat>)
    requires Distinct(workers) && forall w :: w in workers ==> w in caps
    ensures Distinct(UnderCap(workers, visits, caps))
  {
    if workers != [] {
      var n := |workers| - 1;
      UnderCapDistinct(workers[..n], visits, caps);
      UnderCapMembers(workers[..n], visits, caps);
      assert workers[n] !in workers[..n];
    }
  }
}
