/**
 * An auditor for the log of a crash-free run. It reads records only, keeps its
 * own replayed checkpoint, and never looks at a snapshot except to compare.
 */
module Trail {
  import opened Wrappers
  import opened Machine
  import opened Protocol
  import opened Ledger

  datatype Audit = Audit(
    cp: Checkpoint,                  // replayed from the records alone
    open: Option<Record>,            // the start still waiting for its terminal
    pending: bool,                   // a record was read whose snapshot must be next
    last: Option<TransitionRecord>,  // the last accepted transition
    over: bool,                      // a failed fallback spawn ends the run
    ok: bool)

  /** The machine state after an accepted record, from the record's own fields. */
  function Replayed(def: Definition, cp: Checkpoint, t: TransitionRecord): Checkpoint
    requires t.TransitionAccepted?
  {
    var dispatch := t.from == At(def.orchestrator);
    Checkpoint(
      t.to,
      if dispatch && t.event.Handoff? then Counted(cp.visits, t.event.target) else cp.visits,
      if !dispatch && t.from.At? && t.event.Handoff? && t.event.requestEnd
      then Some(EndRequest(t.from.role, t.file)) else None,
      cp.active)
  }

  /** The transition is an authorised worker's request to end. */
  predicate IsRequest(def: Definition, t: Option<TransitionRecord>, requester: Role) {
    && t.Some? && t.value.TransitionAccepted?
    && t.value.from == At(requester) && t.value.to == At(def.orchestrator)
    && t.value.event == Handoff(def.orchestrator, true)
    && requester != def.orchestrator && MayRequestEnd(def, requester)
  }

  /** The accepted record continues the trail: contiguous, under cap, authorised. */
  predicate Continues(def: Definition, a: Audit, t: TransitionRecord)
    requires t.TransitionAccepted?
  {
    && t.from == a.cp.current && t.who == t.from
    && match t.event
       case End(authority) =>
         && t.from == At(def.orchestrator) && t.to == Done
         && if authority == ByRole && def.endRequestRoles.Some?
            then t.endRequestedBy.Some? && IsRequest(def, a.last, t.endRequestedBy.value)
            else t.endRequestedBy.None?
       case Handoff(target, requestEnd) =>
         && t.to == At(target)
         && if t.from == At(def.orchestrator)
            then target in def.workers && target in def.maxVisits &&
                 Count(a.cp.visits, target) < def.maxVisits[target]
            else t.from.At? && target == def.orchestrator &&
                 (requestEnd ==> MayRequestEnd(def, t.from.role))
  }

  predicate Closes(start: Record, r: Record) {
    && start.Started? && r.Terminal?
    && r.role == start.role && r.visitIndex == start.visitIndex
    && r.ident == start.ident && r.parent == start.parent
  }

  function Read(def: Definition, a: Audit, r: Record): Audit {
    if r.Snapshot? then
      if a.pending && r.checkpoint == a.cp then a.(pending := false) else a.(ok := false)
    else if a.pending || a.over then a.(ok := false)
    else
      match r
      case Transition(t) =>
        if t.TransitionRejected? then
          if a.open.Some? && t.at == a.cp.current then a else a.(ok := false)
        else if Continues(def, a, t) then
          a.(cp := Replayed(def, a.cp, t), last := Some(t), pending := true)
        else a.(ok := false)
      case Started(role, _, at, ident, _) =>
        var id := SessionOf(ident);
        if a.open.None? && id.Some? && at == a.cp.current && at == At(role) then
          a.(cp := a.cp.(active := Some(Active(id.value, role, ident.file))), open := Some(r), pending := true)
        else a.(ok := false)
      case Terminal(_, _, _, at, ident, _, cost) =>
        if at != a.cp.current then a.(ok := false)
        else if ident == Ident(None, FALLBACK_FILE) then
          if a.open.None? && cost == 0 then a.(over := true) else a.(ok := false)
        else if a.open.Some? && Closes(a.open.value, r) then
          a.(cp := a.cp.(active := None), open := None, pending := true)
        else a.(ok := false)
      case _ => if a.open.None? then a else a.(ok := false)
  }

  function AuditOf(def: Definition, log: seq<Record>): Audit {
    if log == [] then Audit(Initial(def), None, true, None, false, true)
    else Read(def, AuditOf(def, log[..|log| - 1]), log[|log| - 1])
  }

  lemma AuditAppend(def: Definition, log: seq<Record>, r: Record)
    ensures AuditOf(def, log + [r]) == Read(def, AuditOf(def, log), r)
  {
    assert (log + [r])[..|log + [r]| - 1] == log;
  }

  lemma AuditAppendTwo(def: Definition, log: seq<Record>, r: Record, s: Record)
    ensures AuditOf(def, log + [r, s]) == Read(def, Read(def, AuditOf(def, log), r), s)
  {
    AuditAppend(def, log, r);
    AuditAppend(def, log + [r], s);
    assert log + [r, s] == log + [r] + [s];
  }

  lemma {:induction false} AuditCut(def: Definition, log: seq<Record>, k: nat)
    requires k <= |log| && AuditOf(def, log).ok
    ensures AuditOf(def, log[..k]).ok
    decreases |log|
  {
    if k < |log| {
      var n := |log| - 1;
      AuditCut(def, log[..n], k);
      assert log[..n][..k] == log[..k];
    } else {
      assert log[..k] == log;
    }
  }

  // ---------------------------------------------------------------- what an accepted audit means

  predicate AcceptedAt(log: seq<Record>, i: int) {
    0 <= i < |log| && log[i].Transition? && log[i].t.TransitionAccepted?
  }

  /** Index `i` is the last accepted transition before `j`. */
  ghost predicate LastAcceptedBefore(log: seq<Record>, i: nat, j: nat) {
    i < j <= |log| && AcceptedAt(log, i) && forall k :: i < k < j ==> !AcceptedAt(log, k)
  }

  lemma {:induction false} LastIsLast(def: Definition, log: seq<Record>, i: nat)
    requires AuditOf(def, log).ok && LastAcceptedBefore(log, i, |log|)
    ensures AuditOf(def, log).last == Some(log[i].t)
    ensures AuditOf(def, log).cp.current == log[i].t.to
    decreases |log|
  {
    var n := |log| - 1;
    AuditCut(def, log, n);
    if i < n {
      assert AcceptedAt(log[..n], i);
      assert forall k :: i < k < n ==> AcceptedAt(log[..n], k) == AcceptedAt(log, k);
      assert !AcceptedAt(log, n);
      LastIsLast(def, log[..n], i);
    }
  }

  lemma {:induction false} AuditAt(def: Definition, log: seq<Record>, j: nat)
    requires AuditOf(def, log).ok && j < |log|
    ensures AuditOf(def, log[..j]).ok && Read(def, AuditOf(def, log[..j]), log[j]).ok
  {
    AuditCut(def, log, j);
    AuditCut(def, log, j + 1);
    assert log[..j + 1][..j] == log[..j] && log[..j + 1][j] == log[j];
  }

  /** Accepted transitions form one path: each leaves from where the previous one arrived. */
  lemma Contiguous(def: Definition, log: seq<Record>, i: nat, j: nat)
    requires AuditOf(def, log).ok && AcceptedAt(log, j) && LastAcceptedBefore(log, i, j)
    ensures log[j].t.from == log[i].t.to
  {
    AuditAt(def, log, j);
    assert forall k :: 0 <= k < j ==> AcceptedAt(log[..j], k) == AcceptedAt(log, k);
    LastIsLast(def, log[..j], i);
  }

  /** With gated ending a role's end directly follows an authorised request, and names its author. */
  lemma EndFollowsRequest(def: Definition, log: seq<Record>, j: nat)
    requires AuditOf(def, log).ok && AcceptedAt(log, j)
    requires log[j].t.event == End(ByRole) && def.endRequestRoles.Some?
    ensures exists i :: RequestBefore(def, log, i, j)
  {
    AuditAt(def, log, j);
    LastIsInLog(def, log[..j]);
    var i :| LastAcceptedBefore(log[..j], i, j);
    LastIsLast(def, log[..j], i);
    assert forall k :: 0 <= k < j ==> AcceptedAt(log[..j], k) == AcceptedAt(log, k);
    assert RequestBefore(def, log, i, j);
  }

  /** The transition accepted just before the end at `j` is the request it names. */
  ghost predicate RequestBefore(def: Definition, log: seq<Record>, i: nat, j: nat) {
    && LastAcceptedBefore(log, i, j) && AcceptedAt(log, j)
    && log[j].t.endRequestedBy.Some? && IsRequest(def, Some(log[i].t), log[j].t.endRequestedBy.value)
  }

  lemma {:induction false} LastIsInLog(def: Definition, log: seq<Record>)
    requires AuditOf(def, log).ok && AuditOf(def, log).last.Some?
    ensures exists i :: LastAcceptedBefore(log, i, |log|)
    decreases |log|
  {
    var n := |log| - 1;
    if AcceptedAt(log, n) {
      assert LastAcceptedBefore(log, n, |log|);
    } else {
      AuditCut(def, log, n);
      LastIsInLog(def, log[..n]);
      var i :| LastAcceptedBefore(log[..n], i, n);
      assert forall k :: 0 <= k < n ==> AcceptedAt(log[..n], k) == AcceptedAt(log, k);
      assert LastAcceptedBefore(log, i, |log|);
    }
  }

  /** Every persisted snapshot is the replay of the records before it. */
  lemma SnapshotIsReplay(def: Definition, log: seq<Record>, j: nat)
    requires AuditOf(def, log).ok && j < |log| && log[j].Snapshot?
    ensures log[j].checkpoint == AuditOf(def, log[..j]).cp
  {
    AuditAt(def, log, j);
  }

  /** Accepted dispatches to a worker. */
  function Dispatches(def: Definition, log: seq<Record>, w: Role): nat {
    if log == [] then 0
    else
      var n := |log| - 1;
      Dispatches(def, log[..n], w) +
      if AcceptedAt(log, n) && log[n].t.from == At(def.orchestrator) && log[n].t.to == At(w) then 1 else 0
  }

  /** The replayed count of a worker is the number of its accepted dispatches, if its name can be counted at all. */
  lemma {:induction false} CountIsDispatches(def: Definition, log: seq<Record>, w: Role)
    requires AuditOf(def, log).ok && w in def.workers
    ensures Count(AuditOf(def, log).cp.visits, w) == if PlainName(w) then Dispatches(def, log, w) else 0
    decreases |log|
  {
    if log != [] {
      AuditCut(def, log, |log| - 1);
      CountIsDispatches(def, log[..|log| - 1], w);
    }
  }

  /** Index `i` is the start still open just before `j`. */
  lemma {:induction false} OpenSince(def: Definition, log: seq<Record>, i: nat)
    requires AuditOf(def, log).ok && i < |log| && log[i].Started?
    requires forall k :: i < k < |log| ==> !(log[k].Terminal? && Closes(log[i], log[k]))
    ensures AuditOf(def, log).open == Some(log[i])
    ensures forall k :: i < k < |log| ==> !log[k].Started? && !log[k].Terminal?
    decreases |log|
  {
    var n := |log| - 1;
    AuditCut(def, log, n);
    if i < n {
      assert forall k :: i < k < n ==> log[..n][k] == log[k];
      OpenSince(def, log[..n], i);
      assert !log[n].Started?;
      assert !log[n].Terminal?;
      forall k | i < k < |log|
        ensures !log[k].Started? && !log[k].Terminal?
      {
        if k < n {
          assert log[..n][k] == log[k];
        }
      }
    }
  }

  /** The replayed checkpoint names the open start's session. */
  lemma {:induction false} OpenIsActive(def: Definition, log: seq<Record>)
    requires AuditOf(def, log).ok
    ensures var a := AuditOf(def, log);
            if a.open.None? then a.cp.active.None?
            else a.open.value.Started? && NamedBy(a.cp, a.open.value)
    decreases |log|
  {
    if log != [] {
      AuditCut(def, log, |log| - 1);
      OpenIsActive(def, log[..|log| - 1]);
    }
  }

  /** The checkpoint's live session is the one this record started. */
  predicate NamedBy(cp: Checkpoint, start: Record)
    requires start.Started?
  {
    var id := SessionOf(start.ident);
    id.Some? && cp.active == Some(Active(id.value, start.role, start.ident.file))
  }

  /**
   * Between two starts there is a terminal with the first one's identity, and
   * only one lifecycle record before it: sessions never overlap.
   */
  lemma StartsDoNotOverlap(def: Definition, log: seq<Record>, i: nat, j: nat)
    requires AuditOf(def, log).ok && i < j < |log| && log[i].Started? && log[j].Started?
    ensures exists k :: i < k < j && log[k].Terminal? && Closes(log[i], log[k])
  {
    if forall k :: i < k < j ==> !(log[k].Terminal? && Closes(log[i], log[k])) {
      AuditAt(def, log, j);
      assert forall k :: i < k < j ==> log[..j][k] == log[k];
      OpenSince(def, log[..j], i);
      assert false;
    }
  }
}
