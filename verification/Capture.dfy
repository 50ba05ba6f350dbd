/**
 * Capturing one settled session boundary: the branch is selected and checked,
 * the SDK's context projected and matched, the branch projected alike. The
 * context the SDK rebuilds from a branch is an input.
 */
module Capture {
  import opened Branch
  import opened Projection
  import opened Pairing

  datatype Log =
    | ToolStarted(session: string, callId: string)
    | DelegationV1(role: string, callId: string)
    | DelegationFromTool(role: string, callId: string)
    | OtherRecord

  /** `id` was executed by this session or admitted for this role. */
  ghost predicate Evidence(records: seq<Log>, role: string, session: string, id: string) {
    exists i :: 0 <= i < |records| &&
                records[i] in {ToolStarted(session, id), DelegationV1(role, id), DelegationFromTool(role, id)}
  }

  method ExecutedToolCallIds(records: seq<Log>, role: string, session: string) returns (ids: set<string>)
    ensures forall id :: id in ids <==> Evidence(records, role, session, id)
  {
    ids := {};
    for i := 0 to |records|
      invariant forall id :: id in ids <==> Evidence(records[..i], role, session, id)
    {
      EvidenceGrows(records, role, session, i);
      match records[i]
      case ToolStarted(s, callId) =>
        if s == session { ids := ids + {callId}; }
      case DelegationV1(r, callId) =>
        if r == role { ids := ids + {callId}; }
      case DelegationFromTool(r, callId) =>
        if r == role { ids := ids + {callId}; }
      case OtherRecord =>
    }
    assert records[..|records|] == records;
  }

  lemma EvidenceGrows(records: seq<Log>, role: string, session: string, i: nat)
    requires i < |records|
    ensures forall id :: Evidence(records[..i + 1], role, session, id) <==>
              Evidence(records[..i], role, session, id) || Evidence([records[i]], role, session, id)
    ensures forall id :: Evidence([records[i]], role, session, id) <==>
              records[i] in {ToolStarted(session, id), DelegationV1(role, id), DelegationFromTool(role, id)}
  {
    forall id
      ensures Evidence(records[..i + 1], role, session, id) <==>
              Evidence(records[..i], role, session, id) || Evidence([records[i]], role, session, id)
    {
      var hits := {ToolStarted(session, id), DelegationV1(role, id), DelegationFromTool(role, id)};
      if Evidence(records[..i], role, session, id) {
        var k :| 0 <= k < i && records[..i][k] in hits;
        assert records[..i + 1][k] in hits;
      }
      if Evidence([records[i]], role, session, id) {
        assert records[..i + 1][i] in hits;
      }
      if Evidence(records[..i + 1], role, session, id) {
        var k :| 0 <= k < i + 1 && records[..i + 1][k] in hits;
        if k < i {
          assert records[..i][k] in hits;
        } else {
          assert [records[i]][0] in hits;
        }
      }
    }
    forall id
      ensures Evidence([records[i]], role, session, id) <==>
              records[i] in {ToolStarted(session, id), DelegationV1(role, id), DelegationFromTool(role, id)}
    {
      assert [records[i]][0] == records[i];
    }
  }

  /** The compaction checks made on the selected branch. */
  method CheckPointers(branch: seq<Entry>) returns (ok: bool)
    requires DistinctIds(branch)
    ensures ok <==> PointersBack(branch)
  {
    for c := 0 to |branch|
      invariant forall k :: 0 <= k < c && branch[k].body.Compaction? ==> Present(branch[..k], branch[k].body.firstKept)
    {
      if branch[c].body.Compaction? {
        var at := FindIndex(branch, branch[c].body.firstKept);
        PointerPresent(branch, c);
        if at == -1 || at >= c {
          return false;
        }
      }
    }
    ok := true;
  }

  lemma PointerPresent(branch: seq<Entry>, c: nat)
    requires c < |branch| && branch[c].body.Compaction?
    ensures Present(branch[..c], branch[c].body.firstKept) <==> 0 <= FindIndex(branch, branch[c].body.firstKept) < c
  {
    var at := FindIndex(branch, branch[c].body.firstKept);
    if 0 <= at < c {
      assert branch[..c][at].id == branch[c].body.firstKept;
    }
    if Present(branch[..c], branch[c].body.firstKept) {
      var k :| 0 <= k < c && branch[..c][k].id == branch[c].body.firstKept;
      assert branch[k].id == branch[c].body.firstKept;
    }
  }

  datatype Captured =
    | Boundary(branch: seq<Entry>, messages: seq<Message>, effective: seq<Entry>)
    | Refused(failure: Failure)
    | UnresolvedToolCall

  /** What a captured boundary promises. */
  ghost predicate Sound(entries: seq<Entry>, leaf: string, context: seq<Message>, executed: set<string>, b: Captured)
    requires b.Boundary?
  {
    && IsBranch(entries, leaf, b.branch) && Valid(b.branch)
    && Settled(b.messages)
    && exists omitted: set<Message> ::
         && IsOmitted(context, executed, omitted)
         && b.messages == Without(context, omitted)
         && Projects(b.branch, Kept(b.branch, omitted), b.effective)
  }

  /** Why a boundary may be refused. */
  ghost predicate Justified(entries: seq<Entry>, leaf: string, context: seq<Message>, executed: set<string>,
      f: Failure) {
    match f
    case DuplicateId => !DistinctIds(entries)
    case BrokenParentChain =>
      !ParentsPresent(entries) || exists b :: IsBranch(entries, leaf, b) && !PointersBack(b)
    case UnknownTip => !Present(entries, leaf)
    case CyclicParentChain => exists climb :: CycleFrom(entries, leaf, climb)
    case SdkRestoreFailed =>
      exists b, omitted: set<Message>, f: nat, c: nat ::
        IsBranch(entries, leaf, b) && Valid(b) && IsOmitted(context, executed, omitted) && LostTarget(b, omitted, f, c)
  }

  method CaptureBoundary(entries: seq<Entry>, leaf: string, context: seq<Message>, executed: set<string>)
    returns (r: Captured)
    ensures r.Boundary? ==> Sound(entries, leaf, context, executed, r)
    ensures r.Refused? ==> Justified(entries, leaf, context, executed, r.failure)
    ensures r.UnresolvedToolCall? ==>
              exists omitted: set<Message> ::
                IsOmitted(context, executed, omitted) && !Settled(Without(context, omitted))
  {
    hide Settled, IsOmitted, Without, Projects, IsBranch, CycleFrom, Stuck, LostTarget, PointersBack;
    var selected := SelectedBranch(entries, leaf);
    if selected.Failed? {
      return Refused(selected.failure);
    }
    BranchFacts(entries, leaf, selected.branch);
    var pointers := CheckPointers(selected.branch);
    if !pointers {
      return Refused(BrokenParentChain);
    }
    var messages, omitted := ProjectContext(context, executed);
    var paired := AssertToolPairing(messages);
    if !paired {
      return UnresolvedToolCall;
    }
    var projected := ProjectEntries(selected.branch, omitted);
    if projected.Failed? {
      StuckMeansAllOmitted(selected.branch, omitted);
      return Refused(projected.failure);
    }
    r := Boundary(selected.branch, messages, projected.branch);
  }

  lemma BranchFacts(entries: seq<Entry>, leaf: string, branch: seq<Entry>)
    requires IsBranch(entries, leaf, branch)
    ensures Chain(branch) && DistinctIds(branch)
  {}

  /**
   * A captured boundary restores to itself: its effective entries are one
   * valid branch, which selecting by the last of them returns unchanged.
   */
  lemma CapturedBranchIsStable(entries: seq<Entry>, leaf: string, context: seq<Message>, executed: set<string>,
      b: Captured)
    requires b.Boundary? && Sound(entries, leaf, context, executed, b)
    ensures Valid(b.effective)
    ensures b.effective != [] ==>
              var tip := b.effective[|b.effective| - 1].id;
              && IsBranch(b.effective, tip, b.effective)
              && (forall c :: IsBranch(b.effective, tip, c) ==> c == b.effective)
              && ParentsPresent(b.effective) && Present(b.effective, tip)
              && !exists climb :: CycleFrom(b.effective, tip, climb)
  {
    var omitted: set<Message> :|
      IsOmitted(context, executed, omitted) && b.messages == Without(context, omitted) &&
      Projects(b.branch, Kept(b.branch, omitted), b.effective);
    ProjectionIsChain(b.branch, omitted, b.effective);
    ProjectionPointsBack(b.branch, omitted, b.effective);
    if b.effective != [] {
      ChainSelectsItself(b.effective);
    }
  }

  /** Every call with evidence is still there, and answered under its own name. */
  lemma EvidenceIsAnswered(entries: seq<Entry>, leaf: string, context: seq<Message>, executed: set<string>, b: Captured,
                           i: nat, id: string, name: string) returns (n: nat)
    requires b.Boundary? && Sound(entries, leaf, context, executed, b)
    requires i < |context| && HasCall(context[i], id, name) && id in executed
    ensures n < |b.messages| && b.messages[n] == context[i]
    ensures Answered(b.messages, n, id, name)
  {
    var omitted: set<Message> :|
      IsOmitted(context, executed, omitted) && b.messages == Without(context, omitted) &&
      Projects(b.branch, Kept(b.branch, omitted), b.effective);
    var k :| 0 <= k < |context[i].content| && context[i].content[k] == ToolCall(id, name);
    assert Executed(context[i], executed);
    ProjectionKeepsEvidence(context, executed, omitted);
    n :| 0 <= n < |b.messages| && b.messages[n] == context[i];
  }

  // ---------------------------------------------------------------- the two projections agree

  function MessagesOf(branch: seq<Entry>): seq<Message> {
    if branch == [] then []
    else
      var front := MessagesOf(branch[..|branch| - 1]);
      var e := branch[|branch| - 1];
      if e.body.MessageBody? then front + [e.body.message] else front
  }

  lemma {:induction false} KeptMessages(branch: seq<Entry>, omitted: set<Message>)
    ensures MessagesOf(Kept(branch, omitted)) == Without(MessagesOf(branch), omitted)
    decreases |branch|
  {
    if branch != [] {
      var front, e := branch[..|branch| - 1], branch[|branch| - 1];
      KeptMessages(front, omitted);
      if Keeps(e, omitted) {
        assert Kept(branch, omitted)[..|Kept(front, omitted)|] == Kept(front, omitted);
      }
      if e.body.MessageBody? {
        assert MessagesOf(branch)[..|MessagesOf(front)|] == MessagesOf(front);
      }
    }
  }

  lemma {:induction false} SameBodiesSameMessages(a: seq<Entry>, b: seq<Entry>)
    requires |a| == |b|
    requires forall n :: 0 <= n < |a| ==> a[n].body == b[n].body || (a[n].body.Compaction? && b[n].body.Compaction?)
    ensures MessagesOf(a) == MessagesOf(b)
    decreases |a|
  {
    if a != [] {
      SameBodiesSameMessages(a[..|a| - 1], b[..|b| - 1]);
    }
  }

  lemma {:induction false} WithoutJoins(x: seq<Message>, y: seq<Message>, omitted: set<Message>)
    ensures Without(x + y, omitted) == Without(x, omitted) + Without(y, omitted)
    decreases |y|
  {
    if y == [] {
      assert x + y == x;
    } else {
      WithoutJoins(x, y[..|y| - 1], omitted);
      assert (x + y)[..|x + y| - 1] == x + y[..|y| - 1];
    }
  }

  lemma {:induction false} KeptJoins(x: seq<Entry>, y: seq<Entry>, omitted: set<Message>)
    ensures Kept(x + y, omitted) == Kept(x, omitted) + Kept(y, omitted)
    decreases |y|
  {
    if y == [] {
      assert x + y == x;
    } else {
      KeptJoins(x, y[..|y| - 1], omitted);
      assert (x + y)[..|x + y| - 1] == x + y[..|y| - 1];
    }
  }

  /** The projected branch carries the kept messages, from any entry on. */
  lemma ProjectedMessages(branch: seq<Entry>, omitted: set<Message>, r: seq<Entry>, k: nat)
    requires Projects(branch, Kept(branch, omitted), r) && k <= |branch|
    ensures |Kept(branch[..k], omitted)| <= |r|
    ensures MessagesOf(r[|Kept(branch[..k], omitted)|..]) == Without(MessagesOf(branch[k..]), omitted)
  {
    var kept, j := Kept(branch, omitted), |Kept(branch[..k], omitted)|;
    assert branch == branch[..k] + branch[k..];
    KeptJoins(branch[..k], branch[k..], omitted);
    forall n | 0 <= n < |r|
      ensures r[n].body == kept[n].body || (r[n].body.Compaction? && kept[n].body.Compaction?)
    {
      RepairedId(branch, kept, kept[n], Before(kept, n));
    }
    assert kept[j..] == Kept(branch[k..], omitted);
    SameBodiesSameMessages(r[j..], kept[j..]);
    KeptMessages(branch[k..], omitted);
  }

  /** The context shows the branch from entry `k` on, after a head of its own (a compaction's summary). */
  predicate Shows(context: seq<Message>, branch: seq<Entry>, head: seq<Message>, k: nat) {
    k <= |branch| && context == head + MessagesOf(branch[k..])
  }

  /**
   * The two projections agree: what the provider would see is the head and the
   * messages that the restored entries carry from the same place on.
   */
  lemma ProjectionsAgree(entries: seq<Entry>, leaf: string, context: seq<Message>, executed: set<string>, b: Captured,
                         head: seq<Message>, k: nat)
    requires b.Boundary? && Sound(entries, leaf, context, executed, b) && Shows(context, b.branch, head, k)
    ensures exists omitted: set<Message>, j: nat ::
              && IsOmitted(context, executed, omitted)
              && j == |Kept(b.branch[..k], omitted)| <= |b.effective|
              && b.messages == Without(head, omitted) + MessagesOf(b.effective[j..])
  {
    var omitted: set<Message> :|
      IsOmitted(context, executed, omitted) && b.messages == Without(context, omitted) &&
      Projects(b.branch, Kept(b.branch, omitted), b.effective);
    ProjectedMessages(b.branch, omitted, b.effective, k);
    WithoutJoins(head, MessagesOf(b.branch[k..]), omitted);
  }
}
