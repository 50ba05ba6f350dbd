/**
 * Retry-superseded failures: removed from the messages a provider sees and
 * from the branch that is restored, with parents and compaction pointers
 * repaired.
 */
module Projection {
  import opened Wrappers
  import opened Branch

  // ---------------------------------------------------------------- messages

  /** Some call of `m` left evidence that it was executed. */
  predicate Executed(m: Message, executed: set<string>) {
    m.Assistant? && exists k :: 0 <= k < |m.content| && m.content[k].ToolCall? && m.content[k].id in executed
  }

  predicate Superseded(m: Message, next: Option<Message>, executed: set<string>) {
    m.Assistant? && m.stopReason == "error" && next.Some? && next.value.Assistant? && !Executed(m, executed)
  }

  function Next(messages: seq<Message>, i: nat): Option<Message> {
    if i + 1 < |messages| then Some(messages[i + 1]) else None
  }

  ghost predicate SupersededAt(messages: seq<Message>, executed: set<string>, i: nat) {
    i < |messages| && Superseded(messages[i], Next(messages, i), executed)
  }

  ghost predicate IsOmitted(messages: seq<Message>, executed: set<string>, omitted: set<Message>) {
    && (forall i: nat :: SupersededAt(messages, executed, i) ==> messages[i] in omitted)
    && forall m :: m in omitted ==> exists i: nat :: SupersededAt(messages, executed, i) && messages[i] == m
  }

  function Without(messages: seq<Message>, omitted: set<Message>): (kept: seq<Message>)
    ensures forall m :: m in kept <==> m in messages && m !in omitted
  {
    if messages == [] then []
    else if messages[|messages| - 1] in omitted then Without(messages[..|messages| - 1], omitted)
    else Without(messages[..|messages| - 1], omitted) + [messages[|messages| - 1]]
  }

  method ProjectContext(messages: seq<Message>, executed: set<string>)
    returns (kept: seq<Message>, omitted: set<Message>)
    ensures IsOmitted(messages, executed, omitted)
    ensures kept == Without(messages, omitted)
  {
    omitted := {};
    for i := 0 to |messages|
      invariant forall k: nat :: k < i && SupersededAt(messages, executed, k) ==> messages[k] in omitted
      invariant forall m :: m in omitted ==> exists k: nat :: SupersededAt(messages, executed, k) && messages[k] == m
    {
      if Superseded(messages[i], Next(messages, i), executed) {
        assert SupersededAt(messages, executed, i);
        omitted := omitted + {messages[i]};
      }
    }
    kept := [];
    for i := 0 to |messages|
      invariant kept == Without(messages[..i], omitted)
    {
      assert messages[..i + 1][..i] == messages[..i];
      if messages[i] !in omitted {
        kept := kept + [messages[i]];
      }
    }
    assert messages[..|messages|] == messages;
  }

  /** Objects occur once in a context. */
  ghost predicate Distinct(messages: seq<Message>) {
    forall i, j :: 0 <= i < j < |messages| ==> messages[i] != messages[j]
  }

  /** The `n`-th kept message stood at `i`, and its successor, if kept, follows it still. */
  ghost predicate KeptFrom(messages: seq<Message>, kept: seq<Message>, omitted: set<Message>, n: nat, i: nat)
    requires n < |kept|
  {
    && i < |messages| && messages[i] == kept[n]
    && (i + 1 < |messages| && messages[i + 1] !in omitted ==> Next(kept, n) == Some(messages[i + 1]))
    && (i + 1 == |messages| ==> n + 1 == |kept|)
  }

  lemma {:induction false} WithoutKeepsNext(messages: seq<Message>, omitted: set<Message>, n: nat)
    requires n < |Without(messages, omitted)|
    ensures exists i :: KeptFrom(messages, Without(messages, omitted), omitted, n, i)
    decreases |messages|
  {
    var last := |messages| - 1;
    var kept, front := Without(messages, omitted), Without(messages[..last], omitted);
    if messages[last] !in omitted && n == |front| {
      assert KeptFrom(messages, kept, omitted, n, last);
    } else {
      WithoutKeepsNext(messages[..last], omitted, n);
      var i :| KeptFrom(messages[..last], front, omitted, n, i);
      assert KeptFrom(messages, kept, omitted, n, i);
    }
  }

  lemma {:induction false} WithoutNothing(messages: seq<Message>, omitted: set<Message>)
    requires forall i :: 0 <= i < |messages| ==> messages[i] !in omitted
    ensures Without(messages, omitted) == messages
    decreases |messages|
  {
    if messages != [] {
      WithoutNothing(messages[..|messages| - 1], omitted);
    }
  }

  /** No kept message is superseded among the kept. */
  lemma KeptStays(messages: seq<Message>, executed: set<string>, omitted: set<Message>, n: nat)
    requires IsOmitted(messages, executed, omitted)
    ensures !SupersededAt(Without(messages, omitted), executed, n)
  {
    var kept := Without(messages, omitted);
    if n < |kept| {
      WithoutKeepsNext(messages, omitted, n);
      var i :| KeptFrom(messages, kept, omitted, n, i);
      assert kept[n] in kept;
      assert !SupersededAt(messages, executed, i);
    }
  }

  /** The message at `i` is a failed answer of an assistant that was retried: the next one answers in its place. */
  predicate RetriedFailure(messages: seq<Message>, executed: set<string>, i: nat) {
    && i + 1 < |messages|
    && messages[i].Assistant? && messages[i].stopReason == "error" && messages[i + 1].Assistant?
    && forall call :: call in messages[i].content && call.ToolCall? ==> call.id !in executed
  }

  /** In a context without repeats exactly the retried failures are gone. */
  lemma ProjectionIsExact(messages: seq<Message>, executed: set<string>, omitted: set<Message>)
    requires IsOmitted(messages, executed, omitted) && Distinct(messages)
    ensures forall i: nat :: i < |messages| ==>
              (messages[i] !in Without(messages, omitted) <==> RetriedFailure(messages, executed, i))
  {
    forall i: nat | i < |messages|
      ensures messages[i] !in Without(messages, omitted) <==> RetriedFailure(messages, executed, i)
    {
      assert SupersededAt(messages, executed, i) <==> RetriedFailure(messages, executed, i);
      if messages[i] in omitted {
        var k: nat :| SupersededAt(messages, executed, k) && messages[k] == messages[i];
        assert k == i;
      }
    }
  }

  /** What is left keeps its order. */
  lemma {:induction false} KeptInOrder(messages: seq<Message>, omitted: set<Message>, m: nat, n: nat)
    requires m < n < |Without(messages, omitted)|
    ensures exists i, k :: 0 <= i < k < |messages| && messages[i] == Without(messages, omitted)[m] &&
                           messages[k] == Without(messages, omitted)[n]
    decreases |messages|
  {
    var last := |messages| - 1;
    var front := Without(messages[..last], omitted);
    if n == |front| {
      assert front[m] in front;
      var i :| 0 <= i < last && messages[..last][i] == front[m];
      assert messages[i] == front[m] && messages[last] == Without(messages, omitted)[n];
    } else {
      KeptInOrder(messages[..last], omitted, m, n);
      var i, k :| 0 <= i < k < last && messages[..last][i] == front[m] && messages[..last][k] == front[n];
      assert messages[i] == front[m] && messages[k] == front[n];
    }
  }

  /**
   * What no projection takes: any message that is not an assistant's failure,
   * and, without repeats, an assistant's last answer before anyone else speaks.
   */
  lemma OthersAreKept(messages: seq<Message>, executed: set<string>, omitted: set<Message>, i: nat)
    requires IsOmitted(messages, executed, omitted) && i < |messages|
    ensures !(messages[i].Assistant? && messages[i].stopReason == "error") ==> messages[i] in Without(messages, omitted)
    ensures Distinct(messages) && (i + 1 == |messages| || !messages[i + 1].Assistant?) ==>
              messages[i] in Without(messages, omitted)
  {
    assert messages[i] in Without(messages, omitted) <==> messages[i] !in omitted;
    hide Without, Executed;
    if messages[i] in omitted {
      var k: nat :| SupersededAt(messages, executed, k) && messages[k] == messages[i];
      assert messages[k].Assistant? && messages[k].stopReason == "error" && k + 1 < |messages|;
      assert messages[k + 1].Assistant?;
    }
  }

  /** Projecting twice is projecting once. */
  lemma ProjectionIsIdempotent(messages: seq<Message>, executed: set<string>, omitted: set<Message>,
      again: set<Message>)
    requires IsOmitted(messages, executed, omitted)
    requires IsOmitted(Without(messages, omitted), executed, again)
    ensures again == {} && Without(Without(messages, omitted), again) == Without(messages, omitted)
  {
    var kept := Without(messages, omitted);
    forall n: nat
      ensures !SupersededAt(kept, executed, n)
    {
      KeptStays(messages, executed, omitted, n);
    }
    WithoutNothing(kept, again);
  }

  lemma OmittedHasSuccessor(messages: seq<Message>, executed: set<string>, omitted: set<Message>, m: Message)
    requires IsOmitted(messages, executed, omitted) && m in omitted
    ensures !Executed(m, executed)
    ensures exists i :: 0 <= i < |messages| - 1 && messages[i] == m
  {
    var i: nat :| SupersededAt(messages, executed, i) && messages[i] == m;
  }

  /** The newest message is never taken, and no message with executed calls is. */
  lemma ProjectionKeepsEvidence(messages: seq<Message>, executed: set<string>, omitted: set<Message>)
    requires IsOmitted(messages, executed, omitted)
    ensures forall i :: 0 <= i < |messages| && Executed(messages[i], executed) ==>
              messages[i] in Without(messages, omitted)
    ensures Distinct(messages) && messages != [] ==>
              && Without(messages, omitted) != []
              && Without(messages, omitted)[|Without(messages, omitted)| - 1] == messages[|messages| - 1]
  {
    forall m | m in omitted
      ensures !Executed(m, executed) && exists i :: 0 <= i < |messages| - 1 && messages[i] == m
    {
      OmittedHasSuccessor(messages, executed, omitted, m);
    }
  }

  // ---------------------------------------------------------------- entries

  predicate Keeps(e: Entry, omitted: set<Message>) {
    !e.body.MessageBody? || e.body.message !in omitted
  }

  function Kept(branch: seq<Entry>, omitted: set<Message>): seq<Entry> {
    if branch == [] then []
    else
      var front := Kept(branch[..|branch| - 1], omitted);
      var e := branch[|branch| - 1];
      if Keeps(e, omitted) then front + [e] else front
  }

  /** Where the kept entries stood, in rising order. */
  function Places(branch: seq<Entry>, omitted: set<Message>): seq<nat> {
    if branch == [] then []
    else
      var front := Places(branch[..|branch| - 1], omitted);
      if Keeps(branch[|branch| - 1], omitted) then front + [|branch| - 1] else front
  }

  lemma {:induction false} KeptByPlace(branch: seq<Entry>, omitted: set<Message>)
    ensures |Places(branch, omitted)| == |Kept(branch, omitted)|
    ensures forall n :: 0 <= n < |Kept(branch, omitted)| ==>
              && Places(branch, omitted)[n] < |branch|
              && Kept(branch, omitted)[n] == branch[Places(branch, omitted)[n]]
              && Keeps(Kept(branch, omitted)[n], omitted)
    ensures forall m, n :: 0 <= m < n < |Places(branch, omitted)| ==>
              Places(branch, omitted)[m] < Places(branch, omitted)[n]
    decreases |branch|
  {
    if branch != [] {
      KeptByPlace(branch[..|branch| - 1], omitted);
    }
  }

  /** Every entry worth keeping has its place. */
  lemma {:induction false} PlaceOf(branch: seq<Entry>, omitted: set<Message>, i: nat) returns (n: nat)
    requires i < |branch| && Keeps(branch[i], omitted)
    ensures n < |Places(branch, omitted)| && Places(branch, omitted)[n] == i
    decreases |branch|
  {
    if i == |branch| - 1 {
      n := |Places(branch, omitted)| - 1;
    } else {
      n := PlaceOf(branch[..|branch| - 1], omitted, i);
    }
  }

  /** The first entry with this id; -1 when there is none. */
  function FindIndex(branch: seq<Entry>, id: string): (r: int)
    ensures -1 <= r < |branch|
    ensures r == -1 <==> !Present(branch, id)
    ensures r >= 0 ==> branch[r].id == id && forall i :: 0 <= i < r ==> branch[i].id != id
  {
    if branch == [] then -1
    else
      var front := FindIndex(branch[..|branch| - 1], id);
      if front >= 0 then front else if branch[|branch| - 1].id == id then |branch| - 1 else -1
  }

  ghost predicate FirstPresent(candidates: seq<Entry>, kept: seq<Entry>, i: int) {
    && 0 <= i < |candidates|
    && Present(kept, candidates[i].id)
    && forall k :: 0 <= k < i ==> !Present(kept, candidates[k].id)
  }

  /** The first entry of `candidates` whose id occurs among `kept`. */
  function FirstSurvivor(candidates: seq<Entry>, kept: seq<Entry>): (r: Option<string>)
    ensures r.None? ==> forall i :: 0 <= i < |candidates| ==> !Present(kept, candidates[i].id)
    ensures r.Some? ==> exists i :: FirstPresent(candidates, kept, i) && candidates[i].id == r.value
  {
    if candidates == [] then None
    else if FindIndex(kept, candidates[0].id) >= 0 then
      assert FirstPresent(candidates, kept, 0);
      Some(candidates[0].id)
    else
      var rest := FirstSurvivor(candidates[1..], kept);
      assert forall i :: FirstPresent(candidates[1..], kept, i) ==> FirstPresent(candidates, kept, i + 1);
      rest
  }

  function Slice(branch: seq<Entry>, lo: nat, hi: int): seq<Entry>
    requires hi <= |branch|
  {
    if lo < hi then branch[lo..hi] else []
  }

  /** The pointer a kept compaction gets; none when no entry can stand in. */
  function Repair(branch: seq<Entry>, kept: seq<Entry>, e: Entry): Option<string>
    requires e.body.Compaction?
  {
    if FindIndex(kept, e.body.firstKept) >= 0 then Some(e.body.firstKept)
    else
      FirstSurvivor(Slice(branch, FindIndex(branch, e.body.firstKept) + 1, FindIndex(branch, e.id)), kept)
  }

  predicate Repairable(branch: seq<Entry>, kept: seq<Entry>, e: Entry) {
    e.body.Compaction? ==> Repair(branch, kept, e).Some?
  }

  function Repaired(branch: seq<Entry>, kept: seq<Entry>, e: Entry, parent: Option<string>): Entry
    requires Repairable(branch, kept, e)
  {
    Entry(e.id, parent, if e.body.Compaction? then Compaction(Repair(branch, kept, e).value) else e.body)
  }

  /** `r` is the kept part of `branch`, reparented and repaired. */
  ghost predicate Projects(branch: seq<Entry>, kept: seq<Entry>, r: seq<Entry>) {
    && |r| == |kept|
    && forall n :: 0 <= n < |r| ==>
         && Repairable(branch, kept, kept[n])
         && r[n] == Repaired(branch, kept, kept[n], Before(kept, n))
  }

  /** The parent of the `n`-th entry of a chain over `kept`. */
  function Before(kept: seq<Entry>, n: nat): Option<string>
    requires n <= |kept|
  {
    if n == 0 then None else Some(kept[n - 1].id)
  }

  ghost predicate Stuck(branch: seq<Entry>, kept: seq<Entry>, n: nat) {
    n < |kept| && !Repairable(branch, kept, kept[n])
  }

  method KeepEntries(branch: seq<Entry>, omitted: set<Message>) returns (kept: seq<Entry>)
    ensures kept == Kept(branch, omitted)
  {
    kept := [];
    for i := 0 to |branch|
      invariant kept == Kept(branch[..i], omitted)
    {
      assert branch[..i + 1][..i] == branch[..i];
      if !(branch[i].body.MessageBody? && branch[i].body.message in omitted) {
        kept := kept + [branch[i]];
      }
    }
    assert branch[..|branch|] == branch;
  }

  /** One step of the map over the kept entries. */
  method Reparent(branch: seq<Entry>, kept: seq<Entry>, e: Entry, parent: Option<string>) returns (r: Option<Entry>)
    ensures r.Some? <==> Repairable(branch, kept, e)
    ensures r.Some? ==> r.value == Repaired(branch, kept, e, parent)
  {
    hide FindIndex, FirstSurvivor, FirstPresent, Present, Slice;
    if e.body.Compaction? && FindIndex(kept, e.body.firstKept) < 0 {
      var originalIndex := FindIndex(branch, e.id);
      var firstKeptIndex := FindIndex(branch, e.body.firstKept);
      var replacement := FirstSurvivor(Slice(branch, firstKeptIndex + 1, originalIndex), kept);
      if replacement.None? {
        return None;
      }
      return Some(Entry(e.id, parent, Compaction(replacement.value)));
    }
    r := Some(e.(parent := parent));
  }

  method ProjectEntries(branch: seq<Entry>, omitted: set<Message>) returns (r: Outcome)
    ensures r.Selected? ==> Projects(branch, Kept(branch, omitted), r.branch)
    ensures r.Failed? ==> r.failure == SdkRestoreFailed
    ensures r.Failed? <==> exists n: nat :: Stuck(branch, Kept(branch, omitted), n)
  {
    var kept := KeepEntries(branch, omitted);
    hide Kept, Repairable, Repaired;
    var parent: Option<string> := None;
    var projected: seq<Entry> := [];
    for n := 0 to |kept|
      invariant |projected| == n
      invariant parent == Before(kept, n)
      invariant forall m :: 0 <= m < n ==> Repairable(branch, kept, kept[m])
      invariant forall m :: 0 <= m < n ==>
                  projected[m] == Repaired(branch, kept, kept[m], Before(kept, m))
    {
      var one := Reparent(branch, kept, kept[n], parent);
      if one.None? {
        assert Stuck(branch, kept, n);
        return Failed(SdkRestoreFailed);
      }
      RepairedId(branch, kept, kept[n], parent);
      parent := Some(one.value.id);
      projected := projected + [one.value];
    }
    r := Selected(projected);
  }

  lemma RepairedId(branch: seq<Entry>, kept: seq<Entry>, e: Entry, parent: Option<string>)
    requires Repairable(branch, kept, e)
    ensures Repaired(branch, kept, e, parent).id == e.id && Repaired(branch, kept, e, parent).parent == parent
    ensures Repaired(branch, kept, e, parent).body.Compaction? <==> e.body.Compaction?
    ensures !e.body.Compaction? ==> Repaired(branch, kept, e, parent).body == e.body
  {}

  // ---------------------------------------------------------------- what a projection keeps

  /** Every compaction points to an entry strictly before it. */
  ghost predicate PointersBack(branch: seq<Entry>) {
    forall c :: 0 <= c < |branch| && branch[c].body.Compaction? ==>
      Present(branch[..c], branch[c].body.firstKept)
  }

  ghost predicate Valid(branch: seq<Entry>) {
    Chain(branch) && DistinctIds(branch) && PointersBack(branch)
  }

  lemma {:induction false} KeptIds(branch: seq<Entry>, omitted: set<Message>)
    requires DistinctIds(branch)
    ensures DistinctIds(Kept(branch, omitted))
  {
    KeptByPlace(branch, omitted);
    hide Kept, Places;
    var kept, places := Kept(branch, omitted), Places(branch, omitted);
    forall m, n | 0 <= m < n < |kept|
      ensures kept[m].id != kept[n].id
    {
      assert places[m] < places[n];
    }
  }

  /** An entry of the branch is present among the kept exactly when it is kept. */
  lemma KeptPresence(branch: seq<Entry>, omitted: set<Message>, i: nat)
    requires DistinctIds(branch) && i < |branch|
    ensures Present(Kept(branch, omitted), branch[i].id) <==> Keeps(branch[i], omitted)
  {
    KeptByPlace(branch, omitted);
    if Keeps(branch[i], omitted) {
      var n := PlaceOf(branch, omitted, i);
      assert Kept(branch, omitted)[n].id == branch[i].id;
    }
    hide Kept, Places;
    if Present(Kept(branch, omitted), branch[i].id) {
      var n :| 0 <= n < |Kept(branch, omitted)| && Kept(branch, omitted)[n].id == branch[i].id;
      assert Places(branch, omitted)[n] == i;
    }
  }

  /**
   * The repaired pointer of the compaction at place `c`: the first entry kept
   * from the old target on, strictly before the compaction; none exactly when
   * everything from the target up to the compaction is omitted.
   */
  lemma RepairFindsFirstKept(branch: seq<Entry>, omitted: set<Message>, f: nat, c: nat)
    requires DistinctIds(branch) && f < c < |branch| && branch[c].body.Compaction?
    requires branch[c].body.firstKept == branch[f].id
    ensures Repair(branch, Kept(branch, omitted), branch[c]) == FirstKeptFrom(branch, omitted, f, c)
  {
    KeptPresence(branch, omitted, f);
    IndexOf(branch, f);
    IndexOf(branch, c);
    SurvivorIsFirstKept(branch, omitted, f + 1, c);
    var kept := Kept(branch, omitted);
    assert Slice(branch, f + 1, c) == branch[f + 1..c];
    assert FindIndex(kept, branch[f].id) >= 0 <==> Keeps(branch[f], omitted);
    hide Kept, Present, DistinctIds, FindIndex, FirstSurvivor, Slice, Keeps, FirstPresent;
  }

  lemma IndexOf(branch: seq<Entry>, i: nat)
    requires DistinctIds(branch) && i < |branch|
    ensures FindIndex(branch, branch[i].id) == i
  {
    hide FindIndex;
    assert Present(branch, branch[i].id);
  }

  /** The id of the first kept entry in `branch[lo..hi]`. */
  function FirstKeptFrom(branch: seq<Entry>, omitted: set<Message>, lo: nat, hi: nat): (r: Option<string>)
    requires lo <= hi <= |branch|
    ensures r.None? <==> (forall i :: lo <= i < hi ==> !Keeps(branch[i], omitted))
    decreases hi - lo
  {
    if lo == hi then None
    else if Keeps(branch[lo], omitted) then
      Some(branch[lo].id)
    else
      FirstKeptFrom(branch, omitted, lo + 1, hi)
  }

  lemma {:induction false} SurvivorIsFirstKept(branch: seq<Entry>, omitted: set<Message>, lo: nat, hi: nat)
    requires DistinctIds(branch) && lo <= hi <= |branch|
    ensures FirstSurvivor(branch[lo..hi], Kept(branch, omitted)) == FirstKeptFrom(branch, omitted, lo, hi)
    decreases hi - lo
  {
    if lo < hi {
      KeptPresence(branch, omitted, lo);
      assert branch[lo..hi][1..] == branch[lo + 1..hi];
      SurvivorIsFirstKept(branch, omitted, lo + 1, hi);
    }
  }

  /** A valid branch cannot be projected exactly when some kept compaction lost all it pointed to. */
  lemma StuckMeansAllOmitted(branch: seq<Entry>, omitted: set<Message>)
    requires Valid(branch)
    ensures (exists n: nat :: Stuck(branch, Kept(branch, omitted), n)) <==>
            exists f: nat, c: nat :: LostTarget(branch, omitted, f, c)
  {
    KeptByPlace(branch, omitted);
    var kept := Kept(branch, omitted);
    if n: nat :| Stuck(branch, kept, n) {
      var c := Places(branch, omitted)[n];
      var f :| 0 <= f < c && branch[..c][f].id == branch[c].body.firstKept;
      RepairFindsFirstKept(branch, omitted, f, c);
      assert LostTarget(branch, omitted, f, c);
    }
    if f: nat, c: nat :| LostTarget(branch, omitted, f, c) {
      RepairFindsFirstKept(branch, omitted, f, c);
      var n := PlaceOf(branch, omitted, c);
      assert Stuck(branch, kept, n);
    }
  }

  ghost predicate LostTarget(branch: seq<Entry>, omitted: set<Message>, f: nat, c: nat) {
    && f < c < |branch|
    && branch[c].body == Compaction(branch[f].id)
    && forall i :: f <= i < c ==> !Keeps(branch[i], omitted)
  }

  /** The projection is again one chain, ids in the old order, bodies unchanged but for pointers. */
  lemma ProjectionIsChain(branch: seq<Entry>, omitted: set<Message>, r: seq<Entry>)
    requires DistinctIds(branch) && Projects(branch, Kept(branch, omitted), r)
    ensures Chain(r) && DistinctIds(r)
    ensures forall n :: 0 <= n < |r| ==> r[n].id == Kept(branch, omitted)[n].id
  {
    KeptIds(branch, omitted);
    var kept := Kept(branch, omitted);
    hide Kept, Repairable, Repaired;
    forall n | 0 <= n < |r|
      ensures r[n].id == kept[n].id && r[n].parent == Before(kept, n)
    {
      RepairedId(branch, kept, kept[n], Before(kept, n));
    }
  }

  /**
   * A projection loses exactly the entries of omitted messages; what it holds of
   * the others is their own body, pointers of compactions aside.
   */
  lemma ProjectionKeepsTheRest(branch: seq<Entry>, omitted: set<Message>, r: seq<Entry>, i: nat)
    requires DistinctIds(branch) && Projects(branch, Kept(branch, omitted), r) && i < |branch|
    ensures Present(r, branch[i].id) <==> !(branch[i].body.MessageBody? && branch[i].body.message in omitted)
    ensures forall n :: 0 <= n < |r| && r[n].id == branch[i].id ==>
              if branch[i].body.Compaction? then r[n].body.Compaction? else r[n].body == branch[i].body
  {
    var kept := Kept(branch, omitted);
    KeptPresence(branch, omitted, i);
    ProjectionIsChain(branch, omitted, r);
    SamePresence(kept, r, branch[i].id);
    hide Kept, Repairable, Repaired, Present;
    forall n | 0 <= n < |r| && r[n].id == branch[i].id
      ensures if branch[i].body.Compaction? then r[n].body.Compaction? else r[n].body == branch[i].body
    {
      RepairedId(branch, kept, kept[n], Before(kept, n));
      KeptEntry(branch, omitted, i, n);
    }
  }

  lemma SamePresence(kept: seq<Entry>, r: seq<Entry>, id: string)
    requires |r| == |kept| && forall n :: 0 <= n < |r| ==> r[n].id == kept[n].id
    ensures Present(r, id) <==> Present(kept, id)
  {
    if n :| 0 <= n < |kept| && kept[n].id == id {
      assert r[n].id == id;
    }
  }

  lemma KeptEntry(branch: seq<Entry>, omitted: set<Message>, i: nat, n: nat)
    requires DistinctIds(branch) && i < |branch| && n < |Kept(branch, omitted)|
    requires Kept(branch, omitted)[n].id == branch[i].id
    ensures Kept(branch, omitted)[n] == branch[i]
  {
    KeptByPlace(branch, omitted);
    hide Kept, Places;
    assert branch[Places(branch, omitted)[n]].id == branch[i].id;
  }

  /** Every pointer of the projection names an entry of it strictly before the compaction. */
  lemma ProjectionPointsBack(branch: seq<Entry>, omitted: set<Message>, r: seq<Entry>)
    requires Valid(branch) && Projects(branch, Kept(branch, omitted), r)
    ensures PointersBack(r)
  {
    ProjectionIsChain(branch, omitted, r);
    KeptByPlace(branch, omitted);
    var kept, places := Kept(branch, omitted), Places(branch, omitted);
    forall n | 0 <= n < |r| && r[n].body.Compaction?
      ensures Present(r[..n], r[n].body.firstKept)
    {
      PointerBack(branch, omitted, r, n);
    }
  }

  lemma PointerBack(branch: seq<Entry>, omitted: set<Message>, r: seq<Entry>, n: nat)
    requires Valid(branch) && Projects(branch, Kept(branch, omitted), r)
    requires n < |r| && r[n].body.Compaction?
    ensures Present(r[..n], r[n].body.firstKept)
  {
    ProjectionIsChain(branch, omitted, r);
    KeptByPlace(branch, omitted);
    var kept, places := Kept(branch, omitted), Places(branch, omitted);
    var c := places[n];
    assert kept[n] == branch[c] && branch[c].body.Compaction?;
    var f :| 0 <= f < c && branch[..c][f].id == branch[c].body.firstKept;
    RepairFindsFirstKept(branch, omitted, f, c);
    FirstKeptAt(branch, omitted, f, c);
    var j :| FirstAt(branch, omitted, f, c, j);
    var m := PlaceOf(branch, omitted, j);
    hide Kept, Places, FirstKeptFrom, Repair;
    assert places[m] == j < c == places[n];
    assert m < n;
    assert r[..n][m].id == r[n].body.firstKept;
  }

  ghost predicate FirstAt(branch: seq<Entry>, omitted: set<Message>, lo: nat, hi: nat, j: nat)
    requires lo <= hi <= |branch|
  {
    lo <= j < hi && Keeps(branch[j], omitted) && FirstKeptFrom(branch, omitted, lo, hi) == Some(branch[j].id)
  }

  lemma {:induction false} FirstKeptAt(branch: seq<Entry>, omitted: set<Message>, lo: nat, hi: nat)
    requires lo <= hi <= |branch| && FirstKeptFrom(branch, omitted, lo, hi).Some?
    ensures exists j :: FirstAt(branch, omitted, lo, hi, j)
    decreases hi - lo
  {
    if Keeps(branch[lo], omitted) {
      assert FirstAt(branch, omitted, lo, hi, lo);
    } else {
      FirstKeptAt(branch, omitted, lo + 1, hi);
      var j :| FirstAt(branch, omitted, lo + 1, hi, j);
      assert FirstAt(branch, omitted, lo, hi, j);
    }
  }

  lemma {:induction false} KeptAll(branch: seq<Entry>)
    ensures Kept(branch, {}) == branch
    decreases |branch|
  {
    if branch != [] {
      KeptAll(branch[..|branch| - 1]);
    }
  }

  /** Nothing omitted: the branch itself. */
  lemma EmptyProjectionIsIdentity(branch: seq<Entry>, r: seq<Entry>)
    requires Valid(branch) && Projects(branch, Kept(branch, {}), r)
    ensures r == branch
  {
    KeptAll(branch);
    hide Kept;
    forall n | 0 <= n < |r|
      ensures r[n] == branch[n]
    {
      if branch[n].body.Compaction? {
        var f :| 0 <= f < n && branch[..n][f].id == branch[n].body.firstKept;
        assert branch[f].id == branch[n].body.firstKept;
      }
    }
  }

  /** A chain of distinct entries selects itself from its last entry. */
  lemma ChainSelectsItself(r: seq<Entry>)
    requires r != [] && Chain(r) && DistinctIds(r)
    ensures ParentsPresent(r) && Present(r, r[|r| - 1].id)
    ensures IsBranch(r, r[|r| - 1].id, r)
    ensures var leaf := r[|r| - 1].id; forall b :: IsBranch(r, leaf, b) ==> b == r
    ensures var leaf := r[|r| - 1].id; !exists climb :: CycleFrom(r, leaf, climb)
  {
    var leaf := r[|r| - 1].id;
    forall i | 0 <= i < |r| && r[i].parent.Some?
      ensures Present(r, r[i].parent.value)
    {
      assert i > 0 && r[i].parent == Some(r[i - 1].id);
    }
    forall b | IsBranch(r, leaf, b)
      ensures b == r
    {
      BranchIsUnique(r, leaf, b, r);
    }
    forall climb
      ensures !CycleFrom(r, leaf, climb)
    {
      BranchExcludesCycle(r, leaf, r, climb);
    }
  }
}
