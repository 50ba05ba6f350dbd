/**
 * The branch of a session file that ends at a committed leaf: a walk along
 * parent links over entries that may be arbitrary, cyclic ones included.
 */
module Branch {
  import opened Wrappers

  datatype Block = ToolCall(id: string, name: string) | OtherBlock

  /**
   * A message object. Two objects with the same content are told apart by
   * `ref`, so a JavaScript set of objects is a set of these values.
   */
  datatype Message =
    | Assistant(ref: nat, stopReason: string, content: seq<Block>)
    | ToolResult(ref: nat, callId: string, toolName: string)
    | OtherMessage(ref: nat, role: string)

  datatype Body =
    | MessageBody(message: Message)
    | Compaction(firstKept: string)
    | OtherBody(kind: string)

  datatype Entry = Entry(id: string, parent: Option<string>, body: Body)

  datatype Failure = DuplicateId | BrokenParentChain | UnknownTip | CyclicParentChain | SdkRestoreFailed

  datatype Outcome = Selected(branch: seq<Entry>) | Failed(failure: Failure)

  // ---------------------------------------------------------------- specification

  ghost predicate DistinctIds(entries: seq<Entry>) {
    forall i, j :: 0 <= i < j < |entries| ==> entries[i].id != entries[j].id
  }

  ghost predicate Present(entries: seq<Entry>, id: string) {
    exists i :: 0 <= i < |entries| && entries[i].id == id
  }

  ghost predicate ParentsPresent(entries: seq<Entry>) {
    forall i :: 0 <= i < |entries| && entries[i].parent.Some? ==> Present(entries, entries[i].parent.value)
  }

  /** Every entry hangs from the one before it, the first from nothing. */
  ghost predicate Chain(branch: seq<Entry>) {
    && (branch != [] ==> branch[0].parent == None)
    && forall k :: 0 < k < |branch| ==> branch[k].parent == Some(branch[k - 1].id)
  }

  /** `branch` runs from a root of `entries` to the entry named `leaf`. */
  ghost predicate IsBranch(entries: seq<Entry>, leaf: string, branch: seq<Entry>) {
    && branch != []
    && branch[|branch| - 1].id == leaf
    && Chain(branch)
    && DistinctIds(branch)
    && forall k :: 0 <= k < |branch| ==> branch[k] in entries
  }

  /** Links climb from one entry to the next and the last one closes a loop. */
  ghost predicate CycleFrom(entries: seq<Entry>, leaf: string, climb: seq<Entry>) {
    && |climb| > 1
    && climb[0].id == leaf
    && (forall k :: 0 <= k < |climb| ==> climb[k] in entries)
    && (forall k :: 0 <= k < |climb| - 1 ==> climb[k].parent == Some(climb[k + 1].id))
    && exists k :: 0 <= k < |climb| - 1 && climb[k] == climb[|climb| - 1]
  }

  function Reversed(s: seq<Entry>): seq<Entry> {
    if s == [] then [] else Reversed(s[1..]) + [s[0]]
  }

  lemma {:induction false} ReversedAt(s: seq<Entry>)
    ensures |Reversed(s)| == |s|
    ensures forall k :: 0 <= k < |s| ==> Reversed(s)[k] == s[|s| - 1 - k]
  {
    if s != [] {
      ReversedAt(s[1..]);
    }
  }

  /** Equal ids name equal entries. */
  lemma SameEntry(entries: seq<Entry>, a: Entry, b: Entry)
    requires DistinctIds(entries) && a in entries && b in entries && a.id == b.id
    ensures a == b
  {}

  /** Seen from the leaf, two branches agree as long as both last. */
  lemma {:induction false} BranchesAgree(entries: seq<Entry>, leaf: string, b: seq<Entry>, c: seq<Entry>, n: nat)
    requires DistinctIds(entries) && IsBranch(entries, leaf, b) && IsBranch(entries, leaf, c)
    requires n < |b| && n < |c|
    ensures b[|b| - 1 - n] == c[|c| - 1 - n]
    decreases n
  {
    if n > 0 {
      BranchesAgree(entries, leaf, b, c, n - 1);
    }
    SameEntry(entries, b[|b| - 1 - n], c[|c| - 1 - n]);
  }

  /** A leaf has at most one branch. */
  lemma BranchIsUnique(entries: seq<Entry>, leaf: string, b: seq<Entry>, c: seq<Entry>)
    requires DistinctIds(entries) && IsBranch(entries, leaf, b) && IsBranch(entries, leaf, c)
    ensures b == c
  {
    if |b| < |c| {
      assert c[|c| - |b|].parent == Some(c[|c| - |b| - 1].id);
      BranchesAgree(entries, leaf, b, c, |b| - 1);
    } else if |c| < |b| {
      assert b[|b| - |c|].parent == Some(b[|b| - |c| - 1].id);
      BranchesAgree(entries, leaf, b, c, |c| - 1);
    }
    if |b| == |c| {
      forall k | 0 <= k < |b|
        ensures b[k] == c[k]
      {
        BranchesAgree(entries, leaf, b, c, |b| - 1 - k);
      }
    }
  }

  /** While a branch lasts, a climb from its leaf follows it. */
  lemma {:induction false} ClimbFollows(entries: seq<Entry>, leaf: string, b: seq<Entry>, climb: seq<Entry>, n: nat)
    requires DistinctIds(entries) && IsBranch(entries, leaf, b) && CycleFrom(entries, leaf, climb)
    requires n < |climb|
    ensures n < |b| && climb[n] == b[|b| - 1 - n]
    decreases n
  {
    if n > 0 {
      ClimbFollows(entries, leaf, b, climb, n - 1);
      assert climb[n - 1].parent == Some(climb[n].id);
      assert |b| - n > 0;
      assert b[|b| - n].parent == Some(b[|b| - n - 1].id);
    }
    SameEntry(entries, climb[n], b[|b| - 1 - n]);
  }

  /** A leaf with a branch reaches no cycle. */
  lemma BranchExcludesCycle(entries: seq<Entry>, leaf: string, b: seq<Entry>, climb: seq<Entry>)
    requires DistinctIds(entries) && IsBranch(entries, leaf, b)
    ensures !CycleFrom(entries, leaf, climb)
  {
    if CycleFrom(entries, leaf, climb) {
      var k :| 0 <= k < |climb| - 1 && climb[k] == climb[|climb| - 1];
      ClimbFollows(entries, leaf, b, climb, k);
      ClimbFollows(entries, leaf, b, climb, |climb| - 1);
    }
  }

  // ---------------------------------------------------------------- selectedBranch

  /** The ids of the entries seen so far, each with its entry. */
  ghost predicate Indexes(byId: map<string, Entry>, entries: seq<Entry>) {
    && (forall i :: 0 <= i < |entries| ==> entries[i].id in byId)
    && (forall id :: id in byId ==> byId[id] in entries && byId[id].id == id)
  }

  method IndexById(entries: seq<Entry>) returns (byId: map<string, Entry>, distinct: bool)
    ensures distinct <==> DistinctIds(entries)
    ensures distinct ==> Indexes(byId, entries)
  {
    byId := map[];
    for i := 0 to |entries|
      invariant DistinctIds(entries[..i]) && Indexes(byId, entries[..i])
    {
      assert entries[..i + 1] == entries[..i] + [entries[i]];
      if entries[i].id in byId {
        assert byId[entries[i].id] in entries[..i];
        return byId, false;
      }
      byId := byId[entries[i].id := entries[i]];
    }
    assert entries[..|entries|] == entries;
    distinct := true;
  }

  method AllParentsPresent(entries: seq<Entry>, byId: map<string, Entry>) returns (ok: bool)
    requires Indexes(byId, entries)
    ensures ok <==> ParentsPresent(entries)
  {
    for i := 0 to |entries|
      invariant forall k :: 0 <= k < i && entries[k].parent.Some? ==> Present(entries, entries[k].parent.value)
    {
      if entries[i].parent.Some? && entries[i].parent.value !in byId {
        return false;
      }
    }
    ok := true;
  }

  /** `selected` climbs from the leaf, and `visited` holds its ids. */
  ghost predicate Climbed(entries: seq<Entry>, leaf: string, selected: seq<Entry>, visited: set<string>) {
    && (forall k :: 0 <= k < |selected| ==> selected[k] in entries && selected[k].id in visited)
    && (forall id :: id in visited ==> Present(selected, id))
    && (selected != [] ==> selected[0].id == leaf)
    && DistinctIds(selected)
    && forall k :: 0 <= k < |selected| - 1 ==> selected[k].parent == Some(selected[k + 1].id)
  }

  lemma ClimbStarts(entries: seq<Entry>, leaf: string)
    ensures Climbed(entries, leaf, [], {})
  {}

  lemma ClimbGrows(entries: seq<Entry>, leaf: string, selected: seq<Entry>, visited: set<string>, e: Entry)
    requires Climbed(entries, leaf, selected, visited) && e in entries && e.id !in visited
    requires selected == [] ==> e.id == leaf
    requires selected != [] ==> selected[|selected| - 1].parent == Some(e.id)
    ensures Climbed(entries, leaf, selected + [e], visited + {e.id})
  {
    forall id | id in visited + {e.id}
      ensures Present(selected + [e], id)
    {
      if id == e.id {
        assert (selected + [e])[|selected|].id == id;
      } else {
        var k :| 0 <= k < |selected| && selected[k].id == id;
        assert (selected + [e])[k].id == id;
      }
    }
  }

  lemma ReversedClimbIsBranch(entries: seq<Entry>, leaf: string, selected: seq<Entry>, visited: set<string>)
    requires Climbed(entries, leaf, selected, visited) && selected != []
    requires selected[|selected| - 1].parent == None
    ensures IsBranch(entries, leaf, Reversed(selected))
  {
    ReversedAt(selected);
  }

  /** Meeting a visited entry again closes a cycle. */
  lemma ClimbCloses(entries: seq<Entry>, leaf: string, selected: seq<Entry>, visited: set<string>, e: Entry)
    requires DistinctIds(entries) && Climbed(entries, leaf, selected, visited) && e in entries && e.id in visited
    requires selected != [] ==> selected[|selected| - 1].parent == Some(e.id)
    ensures exists climb :: CycleFrom(entries, leaf, climb)
  {
    var climb := selected + [e];
    var k :| 0 <= k < |selected| && selected[k].id == e.id;
    SameEntry(entries, selected[k], e);
    assert climb[k] == climb[|climb| - 1];
    assert CycleFrom(entries, leaf, climb);
  }

  lemma ClimbEnds(entries: seq<Entry>, leaf: string, selected: seq<Entry>, visited: set<string>)
    requires DistinctIds(entries) && Climbed(entries, leaf, selected, visited) && selected != []
    requires selected[|selected| - 1].parent == None
    ensures IsBranch(entries, leaf, Reversed(selected))
    ensures !exists climb :: CycleFrom(entries, leaf, climb)
  {
    ReversedClimbIsBranch(entries, leaf, selected, visited);
    forall climb
      ensures !CycleFrom(entries, leaf, climb)
    {
      BranchExcludesCycle(entries, leaf, Reversed(selected), climb);
    }
  }

  lemma PresentMeansIndexed(byId: map<string, Entry>, entries: seq<Entry>, id: string)
    requires Indexes(byId, entries)
    ensures Present(entries, id) <==> id in byId
  {}

  lemma ParentPresent(entries: seq<Entry>, e: Entry)
    requires ParentsPresent(entries) && e in entries && e.parent.Some?
    ensures Present(entries, e.parent.value)
  {}

  /**
   * The unique branch of the leaf, or the first failure in the order of the
   * checks; a leaf above a cycle is the only other way to fail.
   */
  method SelectedBranch(entries: seq<Entry>, leaf: string) returns (r: Outcome)
    ensures r == Failed(DuplicateId) <==> !DistinctIds(entries)
    ensures r == Failed(BrokenParentChain) <==> DistinctIds(entries) && !ParentsPresent(entries)
    ensures r == Failed(UnknownTip) <==>
            DistinctIds(entries) && ParentsPresent(entries) && !Present(entries, leaf)
    ensures r == Failed(CyclicParentChain) <==>
            && DistinctIds(entries) && ParentsPresent(entries) && Present(entries, leaf)
            && exists climb :: CycleFrom(entries, leaf, climb)
    ensures r != Failed(SdkRestoreFailed)
    ensures r.Selected? ==> IsBranch(entries, leaf, r.branch)
  {
    hide Climbed, CycleFrom, IsBranch, DistinctIds, ParentsPresent, Present;
    var byId, distinct := IndexById(entries);
    if !distinct {
      return Failed(DuplicateId);
    }
    var parents := AllParentsPresent(entries, byId);
    if !parents {
      return Failed(BrokenParentChain);
    }
    PresentMeansIndexed(byId, entries, leaf);
    if leaf !in byId {
      return Failed(UnknownTip);
    }
    var selected: seq<Entry> := [];
    var visited: set<string> := {};
    var current := byId[leaf];
    ClimbStarts(entries, leaf);
    while true
      invariant current in entries && current.id in byId
      invariant Climbed(entries, leaf, selected, visited)
      invariant visited <= byId.Keys
      invariant selected == [] ==> current.id == leaf
      invariant selected != [] ==> selected[|selected| - 1].parent == Some(current.id)
      decreases |byId.Keys - visited|
    {
      if current.id in visited {
        ClimbCloses(entries, leaf, selected, visited, current);
        return Failed(CyclicParentChain);
      }
      ClimbGrows(entries, leaf, selected, visited, current);
      assert byId.Keys - (visited + {current.id}) == (byId.Keys - visited) - {current.id};
      visited := visited + {current.id};
      selected := selected + [current];
      if current.parent.None? {
        break;
      }
      ParentPresent(entries, current);
      PresentMeansIndexed(byId, entries, current.parent.value);
      if current.parent.value !in byId {
        return Failed(BrokenParentChain);
      }
      current := byId[current.parent.value];
    }
    ClimbEnds(entries, leaf, selected, visited);
    r := Selected(Reversed(selected));
  }
}
