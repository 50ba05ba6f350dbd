/** The tool call and result matcher of a session history. */
module Pairing {
  import opened Wrappers
  import opened Branch

  // ---------------------------------------------------------------- declarative reading

  ghost predicate HasCall(m: Message, id: string, name: string) {
    m.Assistant? && exists k :: 0 <= k < |m.content| && m.content[k] == ToolCall(id, name)
  }

  /** No two calls of one message share an id. */
  ghost predicate CallsDistinct(m: Message) {
    m.Assistant? ==>
      forall j, k :: 0 <= j < k < |m.content| && m.content[j].ToolCall? && m.content[k].ToolCall? ==>
        m.content[j].id != m.content[k].id
  }

  /** Only results stand in `ms[lo..hi]`. */
  ghost predicate Results(ms: seq<Message>, lo: int, hi: int) {
    forall k :: lo <= k < hi && 0 <= k < |ms| ==> ms[k].ToolResult?
  }

  /** The result at `j` answers the call `id` of the message at `i`, nothing but results between. */
  ghost predicate Answers(ms: seq<Message>, i: int, j: int, id: string) {
    && 0 <= i < j < |ms|
    && Results(ms, i + 1, j + 1)
    && ms[j].ToolResult?
    && ms[j].callId == id
  }

  ghost predicate Answered(ms: seq<Message>, i: int, id: string, name: string) {
    exists j :: Answers(ms, i, j, id) && ms[j].toolName == name
  }

  ghost predicate ResultHasCall(ms: seq<Message>, j: int)
    requires 0 <= j < |ms| && ms[j].ToolResult?
  {
    exists i :: Answers(ms, i, j, ms[j].callId) && HasCall(ms[i], ms[j].callId, ms[j].toolName)
  }

  /** Two results of one stretch answer different calls. */
  ghost predicate AnsweredOnce(ms: seq<Message>) {
    forall j, k :: 0 <= j < k < |ms| && Results(ms, j, k + 1) ==> ms[j].callId != ms[k].callId
  }

  ghost predicate AllCallsDistinct(ms: seq<Message>) {
    forall i :: 0 <= i < |ms| ==> CallsDistinct(ms[i])
  }

  ghost predicate AllResultsCalled(ms: seq<Message>) {
    forall j :: 0 <= j < |ms| && ms[j].ToolResult? ==> ResultHasCall(ms, j)
  }

  /** Only the newest message that is no result may still lack answers. */
  ghost predicate AnsweredOrNewest(ms: seq<Message>) {
    forall i, id, name :: 0 <= i < |ms| && HasCall(ms[i], id, name) ==>
      Answered(ms, i, id, name) || Results(ms, i + 1, |ms|)
  }

  /** Well-formed so far: the newest calls may still be open. */
  ghost predicate Orderly(ms: seq<Message>) {
    AllCallsDistinct(ms) && AllResultsCalled(ms) && AnsweredOnce(ms) && AnsweredOrNewest(ms)
  }

  /** The call `id` was made and nothing but results, none of them for it, came since. */
  ghost predicate Open(ms: seq<Message>, id: string, name: string) {
    exists i :: OpenAt(ms, i, id, name)
  }

  ghost predicate OpenAt(ms: seq<Message>, i: int, id: string, name: string) {
    && 0 <= i < |ms|
    && HasCall(ms[i], id, name)
    && Results(ms, i + 1, |ms|)
    && forall j :: i < j < |ms| ==> ms[j].callId != id
  }

  /** Every call has exactly one result of its id and name before any other message, and every result its call. */
  ghost predicate Settled(ms: seq<Message>) {
    && Orderly(ms)
    && forall i, id, name :: 0 <= i < |ms| && HasCall(ms[i], id, name) ==> Answered(ms, i, id, name)
  }

  // ---------------------------------------------------------------- the matcher as a fold

  /** The calls of a message added to the pending ones; none when an id is pending already. */
  function AddCalls(pending: map<string, string>, content: seq<Block>): Option<map<string, string>> {
    if content == [] then Some(pending)
    else
      var before := AddCalls(pending, content[..|content| - 1]);
      match content[|content| - 1]
      case OtherBlock => before
      case ToolCall(id, name) =>
        if before.None? || id in before.value then None else Some(before.value[id := name])
  }

  function Settle(pending: map<string, string>, m: Message): Option<map<string, string>> {
    if pending != map[] && !m.ToolResult? then None
    else
      match m
      case Assistant(_, _, content) => AddCalls(pending, content)
      case ToolResult(_, callId, toolName) =>
        if callId in pending && pending[callId] == toolName then Some(pending - {callId}) else None
      case OtherMessage(_, _) => Some(pending)
  }

  function Pending(ms: seq<Message>): Option<map<string, string>> {
    if ms == [] then Some(map[])
    else
      var before := Pending(ms[..|ms| - 1]);
      if before.None? then None else Settle(before.value, ms[|ms| - 1])
  }

  // ---------------------------------------------------------------- the fold decides the reading

  ghost predicate CallIn(content: seq<Block>, id: string, name: string) {
    exists k :: 0 <= k < |content| && content[k] == ToolCall(id, name)
  }

  ghost predicate DistinctCalls(content: seq<Block>) {
    forall j, k :: 0 <= j < k < |content| && content[j].ToolCall? && content[k].ToolCall? ==>
      content[j].id != content[k].id
  }

  ghost predicate NothingOpen(ms: seq<Message>) {
    forall id, name :: !Open(ms, id, name)
  }

  lemma DistinctCallsStep(content: seq<Block>)
    requires content != []
    ensures var front, b := content[..|content| - 1], content[|content| - 1];
            DistinctCalls(content) <==>
            DistinctCalls(front) &&
            (b.ToolCall? ==> !exists k :: 0 <= k < |front| && front[k].ToolCall? && front[k].id == b.id)
  {
    var front, b := content[..|content| - 1], content[|content| - 1];
    if DistinctCalls(content) {
      assert forall k :: 0 <= k < |front| ==> front[k] == content[k];
    }
  }

  lemma {:induction false} AddCallsMeans(content: seq<Block>)
    ensures AddCalls(map[], content).Some? <==> DistinctCalls(content)
    ensures AddCalls(map[], content).Some? ==>
              forall id, name :: Maps(AddCalls(map[], content).value, id, name) <==> CallIn(content, id, name)
    decreases |content|
  {
    if content != [] {
      var front, b := content[..|content| - 1], content[|content| - 1];
      AddCallsMeans(front);
      forall id, name
        ensures CallIn(content, id, name) <==> CallIn(front, id, name) || b == ToolCall(id, name)
      {
        if CallIn(front, id, name) {
          var k :| 0 <= k < |front| && front[k] == ToolCall(id, name);
          assert content[k] == ToolCall(id, name);
        }
        if b == ToolCall(id, name) {
          assert content[|content| - 1] == ToolCall(id, name);
        }
      }
      var before := AddCalls(map[], front);
      DistinctCallsStep(content);
      if before.Some? && b.ToolCall? {
        CallIdIn(front, before.value, b.id);
      }
    }
  }

  /** The pending map holds the call `id` under `name`. */
  predicate Maps(pending: map<string, string>, id: string, name: string) {
    id in pending && pending[id] == name
  }

  lemma CallIdIn(content: seq<Block>, pending: map<string, string>, id: string)
    requires forall i, name :: Maps(pending, i, name) <==> CallIn(content, i, name)
    ensures id in pending <==> exists k :: 0 <= k < |content| && content[k].ToolCall? && content[k].id == id
  {
    if id in pending {
      assert Maps(pending, id, pending[id]);
    }
    if k :| 0 <= k < |content| && content[k].ToolCall? && content[k].id == id {
      assert CallIn(content, id, content[k].name);
    }
  }

  ghost predicate HoldsOpen(ms: seq<Message>, pending: map<string, string>) {
    forall id, name :: Maps(pending, id, name) <==> Open(ms, id, name)
  }

  /** A call that is not answered and has only results after it is open. */
  lemma UnansweredIsOpen(ms: seq<Message>, i: int, id: string, name: string)
    requires Orderly(ms) && 0 <= i < |ms| && HasCall(ms[i], id, name) && Results(ms, i + 1, |ms|)
    ensures Answered(ms, i, id, name) || OpenAt(ms, i, id, name)
  {
    if j :| i < j < |ms| && ms[j].callId == id {
      var c :| Answers(ms, c, j, id) && HasCall(ms[c], id, ms[j].toolName);
      assert c == i;
      assert Answers(ms, i, j, id);
    }
  }

  lemma AnswersInPrefix(ms: seq<Message>, n: nat, i: int, j: int, id: string)
    requires n <= |ms| && j < n
    ensures Answers(ms, i, j, id) <==> Answers(ms[..n], i, j, id)
  {
    if Answers(ms[..n], i, j, id) {
      forall k | i + 1 <= k < j + 1 && 0 <= k < |ms|
        ensures ms[k].ToolResult?
      {
        assert ms[..n][k].ToolResult?;
      }
    }
  }

  lemma PrefixAnsweredOnce(ms: seq<Message>)
    requires ms != [] && AnsweredOnce(ms)
    ensures AnsweredOnce(ms[..|ms| - 1])
  {
    var front := ms[..|ms| - 1];
    forall j, k | 0 <= j < k < |front| && Results(front, j, k + 1)
      ensures front[j].callId != front[k].callId
    {
      assert forall x :: j <= x < k + 1 ==> ms[x] == front[x];
      assert Results(ms, j, k + 1);
    }
  }

  lemma PrefixCalled(ms: seq<Message>)
    requires ms != [] && AllResultsCalled(ms)
    ensures AllResultsCalled(ms[..|ms| - 1])
  {
    var front := ms[..|ms| - 1];
    forall j | 0 <= j < |front| && front[j].ToolResult?
      ensures ResultHasCall(front, j)
    {
      assert ResultHasCall(ms, j);
      var i :| Answers(ms, i, j, ms[j].callId) && HasCall(ms[i], ms[j].callId, ms[j].toolName);
      AnswersInPrefix(ms, |ms| - 1, i, j, ms[j].callId);
    }
  }

  /** What was orderly was orderly before its last message. */
  lemma PrefixIsOrderly(ms: seq<Message>)
    requires ms != [] && Orderly(ms)
    ensures Orderly(ms[..|ms| - 1])
  {
    var n := |ms| - 1;
    var front := ms[..n];
    PrefixAnsweredOnce(ms);
    PrefixCalled(ms);
    hide AnsweredOnce, AllResultsCalled, CallsDistinct, HasCall;
    forall i | 0 <= i < n
      ensures CallsDistinct(front[i])
    {
      assert CallsDistinct(ms[i]);
    }
    forall i, id, name | 0 <= i < n && HasCall(front[i], id, name)
      ensures Answered(front, i, id, name) || Results(front, i + 1, n)
    {
      assert HasCall(ms[i], id, name);
      if Answered(ms, i, id, name) {
        var j :| Answers(ms, i, j, id) && ms[j].toolName == name;
        if j < n {
          AnswersInPrefix(ms, n, i, j, id);
        }
      }
    }
  }

  /** An open call tolerates no other message. */
  lemma OpenForbidsOthers(ms: seq<Message>, id: string, name: string)
    requires ms != [] && !ms[|ms| - 1].ToolResult? && Open(ms[..|ms| - 1], id, name)
    ensures !Orderly(ms)
  {
    var n := |ms| - 1;
    var i :| OpenAt(ms[..n], i, id, name);
    assert HasCall(ms[i], id, name);
    assert forall j :: i < j < n ==> ms[j] == ms[..n][j];
  }

  /** Results that had their call keep it. */
  lemma CallsPersist(ms: seq<Message>, j: int)
    requires ms != [] && 0 <= j < |ms| - 1 && ms[j].ToolResult? && ResultHasCall(ms[..|ms| - 1], j)
    ensures ResultHasCall(ms, j)
  {
    var front := ms[..|ms| - 1];
    var i :| Answers(front, i, j, front[j].callId) && HasCall(front[i], front[j].callId, front[j].toolName);
    AnswersInPrefix(ms, |ms| - 1, i, j, ms[j].callId);
  }

  lemma AnswerPersists(ms: seq<Message>, i: int, id: string, name: string)
    requires ms != [] && Answered(ms[..|ms| - 1], i, id, name)
    ensures Answered(ms, i, id, name)
  {
    var front := ms[..|ms| - 1];
    var j :| Answers(front, i, j, id) && front[j].toolName == name;
    AnswersInPrefix(ms, |ms| - 1, i, j, id);
  }

  lemma OthersAnsweredOnce(ms: seq<Message>)
    requires ms != [] && !ms[|ms| - 1].ToolResult? && AnsweredOnce(ms[..|ms| - 1])
    ensures AnsweredOnce(ms)
  {
    var n := |ms| - 1;
    var front := ms[..n];
    forall j, k | 0 <= j < k < |ms| && Results(ms, j, k + 1)
      ensures ms[j].callId != ms[k].callId
    {
      assert k < n;
      assert forall x :: j <= x < k + 1 ==> ms[x] == front[x];
      assert Results(front, j, k + 1);
    }
  }

  lemma OthersAnswered(ms: seq<Message>)
    requires ms != [] && Orderly(ms[..|ms| - 1]) && NothingOpen(ms[..|ms| - 1])
    ensures AnsweredOrNewest(ms)
  {
    hide Answered;
    var n := |ms| - 1;
    var front := ms[..n];
    forall i, id, name | 0 <= i < |ms| && HasCall(ms[i], id, name)
      ensures Answered(ms, i, id, name) || Results(ms, i + 1, |ms|)
    {
      if i < n {
        assert HasCall(front[i], id, name) && !Open(front, id, name);
        if !Answered(front, i, id, name) {
          UnansweredIsOpen(front, i, id, name);
        }
        AnswerPersists(ms, i, id, name);
      }
    }
  }

  /** With nothing open, an ordinary message may follow if its own calls are distinct. */
  lemma OthersFollow(ms: seq<Message>)
    requires ms != [] && !ms[|ms| - 1].ToolResult? && Orderly(ms[..|ms| - 1]) && CallsDistinct(ms[|ms| - 1])
    requires NothingOpen(ms[..|ms| - 1])
    ensures Orderly(ms)
  {
    OthersAnswered(ms);
    hide AnsweredOnce, AllCallsDistinct, AllResultsCalled, AnsweredOrNewest;
    OthersAnsweredOnce(ms);
    DistinctFollows(ms);
    CalledFollows(ms);
  }

  /** A result for an open call answers it for the first time. */
  lemma FirstAnswer(ms: seq<Message>, o: int)
    requires ms != [] && ms[|ms| - 1].ToolResult? && AnsweredOnce(ms[..|ms| - 1])
    requires OpenAt(ms[..|ms| - 1], o, ms[|ms| - 1].callId, ms[|ms| - 1].toolName)
    ensures AnsweredOnce(ms)
  {
    var n := |ms| - 1;
    var front, m := ms[..n], ms[n];
    forall j, k | 0 <= j < k < |ms| && Results(ms, j, k + 1)
      ensures ms[j].callId != ms[k].callId
    {
      if k < n {
        assert forall x :: j <= x < k + 1 ==> ms[x] == front[x];
        assert Results(front, j, k + 1);
      } else {
        assert front[o].Assistant? && front[o] == ms[o];
        assert j > o && front[j].callId != m.callId;
      }
    }
  }

  lemma AnswerHasCall(ms: seq<Message>, o: int)
    requires ms != [] && ms[|ms| - 1].ToolResult?
    requires OpenAt(ms[..|ms| - 1], o, ms[|ms| - 1].callId, ms[|ms| - 1].toolName)
    ensures ResultHasCall(ms, |ms| - 1)
  {
    var n := |ms| - 1;
    assert forall k :: o <= k < n ==> ms[k] == ms[..n][k];
    assert Answers(ms, o, n, ms[n].callId);
  }

  lemma DistinctFollows(ms: seq<Message>)
    requires ms != [] && AllCallsDistinct(ms[..|ms| - 1]) && CallsDistinct(ms[|ms| - 1])
    ensures AllCallsDistinct(ms)
  {
    hide CallsDistinct;
    forall i | 0 <= i < |ms|
      ensures CallsDistinct(ms[i])
    {
      assert i < |ms| - 1 ==> CallsDistinct(ms[..|ms| - 1][i]);
    }
  }

  lemma CalledFollows(ms: seq<Message>)
    requires ms != [] && AllResultsCalled(ms[..|ms| - 1])
    requires ms[|ms| - 1].ToolResult? ==> ResultHasCall(ms, |ms| - 1)
    ensures AllResultsCalled(ms)
  {
    hide ResultHasCall;
    forall j | 0 <= j < |ms| && ms[j].ToolResult?
      ensures ResultHasCall(ms, j)
    {
      if j < |ms| - 1 {
        assert ResultHasCall(ms[..|ms| - 1], j);
        CallsPersist(ms, j);
      }
    }
  }

  lemma AnsweredFollows(ms: seq<Message>)
    requires ms != [] && ms[|ms| - 1].ToolResult? && AnsweredOrNewest(ms[..|ms| - 1])
    ensures AnsweredOrNewest(ms)
  {
    hide Answered;
    var n := |ms| - 1;
    var front := ms[..n];
    forall i, id, name | 0 <= i < |ms| && HasCall(ms[i], id, name)
      ensures Answered(ms, i, id, name) || Results(ms, i + 1, |ms|)
    {
      assert HasCall(front[i], id, name);
      if Answered(front, i, id, name) {
        AnswerPersists(ms, i, id, name);
      } else {
        assert Results(front, i + 1, n);
        assert forall k :: i + 1 <= k < n ==> ms[k] == front[k];
      }
    }
  }

  /** A result for an open call keeps the order. */
  lemma ResultFollows(ms: seq<Message>)
    requires ms != [] && ms[|ms| - 1].ToolResult? && Orderly(ms[..|ms| - 1])
    requires Open(ms[..|ms| - 1], ms[|ms| - 1].callId, ms[|ms| - 1].toolName)
    ensures Orderly(ms)
  {
    hide AnsweredOnce, AllCallsDistinct, AllResultsCalled, AnsweredOrNewest, ResultHasCall, OpenAt;
    var o :| OpenAt(ms[..|ms| - 1], o, ms[|ms| - 1].callId, ms[|ms| - 1].toolName);
    FirstAnswer(ms, o);
    AnswerHasCall(ms, o);
    DistinctFollows(ms);
    CalledFollows(ms);
    AnsweredFollows(ms);
  }

  /** An orderly result answers a call that was open. */
  lemma ResultWasOpen(ms: seq<Message>)
    requires ms != [] && ms[|ms| - 1].ToolResult? && Orderly(ms)
    ensures Open(ms[..|ms| - 1], ms[|ms| - 1].callId, ms[|ms| - 1].toolName)
  {
    var n := |ms| - 1;
    var front, m := ms[..n], ms[n];
    var i :| Answers(ms, i, n, m.callId) && HasCall(ms[i], m.callId, m.toolName);
    forall j | i < j < n
      ensures front[j].callId != m.callId
    {
      assert Results(ms, j, n + 1);
    }
    assert OpenAt(front, i, m.callId, m.toolName);
  }

  /** Which calls are open after a result. */
  lemma OpenAfterResult(ms: seq<Message>, id: string, name: string)
    requires ms != [] && ms[|ms| - 1].ToolResult?
    ensures Open(ms, id, name) <==> Open(ms[..|ms| - 1], id, name) && id != ms[|ms| - 1].callId
  {
    var n := |ms| - 1;
    if i :| OpenAt(ms, i, id, name) {
      assert i < n;
      assert OpenAt(ms[..n], i, id, name);
      assert ms[n].callId != id;
    }
    if Open(ms[..n], id, name) && id != ms[n].callId {
      var i :| OpenAt(ms[..n], i, id, name);
      assert OpenAt(ms, i, id, name);
    }
  }

  /** Which calls are open after any other message. */
  lemma OpenAfterOther(ms: seq<Message>, id: string, name: string)
    requires ms != [] && !ms[|ms| - 1].ToolResult?
    ensures Open(ms, id, name) <==> HasCall(ms[|ms| - 1], id, name)
  {
    if HasCall(ms[|ms| - 1], id, name) {
      assert OpenAt(ms, |ms| - 1, id, name);
    }
  }

  lemma {:induction false} PendingMeans(ms: seq<Message>)
    ensures Pending(ms).Some? <==> Orderly(ms)
    ensures Pending(ms).Some? ==> HoldsOpen(ms, Pending(ms).value)
    decreases |ms|
  {
    if ms != [] {
      var front, m := ms[..|ms| - 1], ms[|ms| - 1];
      PendingMeans(front);
      if Pending(front).None? {
        if Orderly(ms) {
          PrefixIsOrderly(ms);
        }
      } else if m.ToolResult? {
        ResultStep(ms, Pending(front).value);
      } else {
        OtherStep(ms, Pending(front).value);
      }
    }
  }

  lemma ResultStep(ms: seq<Message>, pending: map<string, string>)
    requires ms != [] && ms[|ms| - 1].ToolResult? && Orderly(ms[..|ms| - 1])
    requires HoldsOpen(ms[..|ms| - 1], pending)
    ensures Settle(pending, ms[|ms| - 1]).Some? <==> Orderly(ms)
    ensures Settle(pending, ms[|ms| - 1]).Some? ==> HoldsOpen(ms, Settle(pending, ms[|ms| - 1]).value)
  {
    hide Orderly, Open;
    var m := ms[|ms| - 1];
    assert Maps(pending, m.callId, m.toolName) <==> Open(ms[..|ms| - 1], m.callId, m.toolName);
    if Maps(pending, m.callId, m.toolName) {
      ResultFollows(ms);
      forall id, name
        ensures Maps(pending - {m.callId}, id, name) <==> Open(ms, id, name)
      {
        OpenAfterResult(ms, id, name);
        assert Maps(pending, id, name) <==> Open(ms[..|ms| - 1], id, name);
      }
    } else if Orderly(ms) {
      ResultWasOpen(ms);
    }
  }

  lemma OtherStep(ms: seq<Message>, pending: map<string, string>)
    requires ms != [] && !ms[|ms| - 1].ToolResult? && Orderly(ms[..|ms| - 1])
    requires HoldsOpen(ms[..|ms| - 1], pending)
    ensures Settle(pending, ms[|ms| - 1]).Some? <==> Orderly(ms)
    ensures Settle(pending, ms[|ms| - 1]).Some? ==> HoldsOpen(ms, Settle(pending, ms[|ms| - 1]).value)
  {
    hide Open;
    var m := ms[|ms| - 1];
    if pending != map[] {
      var id :| id in pending;
      assert Maps(pending, id, pending[id]);
      OpenForbidsOthers(ms, id, pending[id]);
    } else {
      var front := ms[..|ms| - 1];
      forall id, name
        ensures !Open(front, id, name)
      {
        assert !Maps(pending, id, name);
      }
      if CallsDistinct(m) {
        OthersFollow(ms);
      }
      hide Orderly;
      if m.Assistant? {
        AddCallsMeans(m.content);
      }
      forall id, name
        ensures Open(ms, id, name) <==> m.Assistant? && CallIn(m.content, id, name)
      {
        OpenAfterOther(ms, id, name);
      }
      OrderlyCallsDistinct(ms);
    }
  }

  lemma OrderlyCallsDistinct(ms: seq<Message>)
    requires ms != []
    ensures Orderly(ms) ==> CallsDistinct(ms[|ms| - 1])
  {}

  lemma SettledIsNotOpen(ms: seq<Message>, id: string, name: string)
    requires Settled(ms)
    ensures !Open(ms, id, name)
  {
    forall i
      ensures !OpenAt(ms, i, id, name)
    {
      if 0 <= i < |ms| && HasCall(ms[i], id, name) {
        var j :| Answers(ms, i, j, id) && ms[j].toolName == name;
      }
    }
  }

  /** The fold ends with nothing pending exactly on settled histories. */
  lemma PairingDecides(ms: seq<Message>)
    ensures Pending(ms) == Some(map[]) <==> Settled(ms)
  {
    PendingMeans(ms);
    if Pending(ms) == Some(map[]) {
      forall i, id, name | 0 <= i < |ms| && HasCall(ms[i], id, name)
        ensures Answered(ms, i, id, name)
      {
        assert !Maps(map[], id, name);
        assert !Open(ms, id, name);
        if Results(ms, i + 1, |ms|) {
          UnansweredIsOpen(ms, i, id, name);
        }
      }
    }
    if Settled(ms) {
      var pending := Pending(ms).value;
      forall id
        ensures id !in pending
      {
        if id in pending {
          assert Maps(pending, id, pending[id]) <==> Open(ms, id, pending[id]);
          SettledIsNotOpen(ms, id, pending[id]);
        }
      }
    }
  }

  // ---------------------------------------------------------------- the loop

  method AddToolCalls(pending: map<string, string>, content: seq<Block>) returns (r: Option<map<string, string>>)
    ensures r == AddCalls(pending, content)
  {
    var added := pending;
    for k := 0 to |content|
      invariant AddCalls(pending, content[..k]) == Some(added)
    {
      assert content[..k + 1][..k] == content[..k];
      if content[k].ToolCall? {
        if content[k].id in added {
          NoneStays(pending, content, k + 1);
          return None;
        }
        added := added[content[k].id := content[k].name];
      }
    }
    assert content[..|content|] == content;
    r := Some(added);
  }

  lemma {:induction false} NoneStays(pending: map<string, string>, content: seq<Block>, k: nat)
    requires k <= |content| && AddCalls(pending, content[..k]) == None
    ensures AddCalls(pending, content) == None
    decreases |content| - k
  {
    if k == |content| {
      assert content[..k] == content;
    } else {
      assert content[..k + 1][..k] == content[..k];
      NoneStays(pending, content, k + 1);
    }
  }

  lemma {:induction false} FailureStays(ms: seq<Message>, k: nat)
    requires k <= |ms| && Pending(ms[..k]) == None
    ensures Pending(ms) == None
    decreases |ms| - k
  {
    if k == |ms| {
      assert ms[..k] == ms;
    } else {
      assert ms[..k + 1][..k] == ms[..k];
      FailureStays(ms, k + 1);
    }
  }

  /** Accepts exactly the settled histories. */
  method AssertToolPairing(ms: seq<Message>) returns (ok: bool)
    ensures ok <==> Settled(ms)
  {
    hide Settled, AddCalls;
    PairingDecides(ms);
    var pending: map<string, string> := map[];
    for k := 0 to |ms|
      invariant Pending(ms[..k]) == Some(pending)
    {
      assert ms[..k + 1][..k] == ms[..k];
      var m := ms[k];
      var next: Option<map<string, string>> := Some(pending);
      if pending != map[] && !m.ToolResult? {
        next := None;
      } else if m.Assistant? {
        next := AddToolCalls(pending, m.content);
      } else if m.ToolResult? {
        if m.callId !in pending || pending[m.callId] != m.toolName {
          next := None;
        } else {
          next := Some(pending - {m.callId});
        }
      }
      assert next == Settle(pending, m);
      if next.None? {
        FailureStays(ms, k + 1);
        return false;
      }
      pending := next.value;
    }
    assert ms[..|ms|] == ms;
    ok := pending == map[];
  }
}
