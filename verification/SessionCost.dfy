/** The accumulator of one live session: usage counted once per key, and why it ended. */
module SessionCost {
  import opened Wrappers
  import opened Usage

  datatype Reason =
    | ToolCleanupUnconfirmed
    | ToolTimeoutExhausted
    | ModelError
    | OtherReason(name: string)

  datatype Event =
    | Message(id: string, usage: Amount)
    | Charge(id: string, usage: Amount)
    | SetReason(reason: Option<Reason>, detail: Option<string>)
    | ClearModelError

  const CHARGE_PREFIX := "context-compaction:"

  function KeyOf(e: Event): Option<string> {
    match e
    case Message(id, _) => Some(id)
    case Charge(id, _) => Some(CHARGE_PREFIX + id)
    case _ => None
  }

  // ---------------------------------------------------------------- specification

  /** The event brings a key that none before it brought. */
  ghost predicate Fresh(events: seq<Event>, n: nat)
    requires n < |events|
  {
    KeyOf(events[n]).Some? && forall i :: 0 <= i < n ==> KeyOf(events[i]) != KeyOf(events[n])
  }

  /** Usage over the first `n` events, each key once. */
  ghost function Counted(events: seq<Event>, n: nat): Amount
    requires n <= |events|
  {
    if n == 0 then ZERO
    else if Fresh(events, n - 1) then Plus(Counted(events, n - 1), events[n - 1].usage)
    else Counted(events, n - 1)
  }

  function NextReason(current: Option<Reason>, e: Event): Option<Reason> {
    match e
    case SetReason(reason, _) =>
      if current == Some(ToolCleanupUnconfirmed) then current
      else if current == Some(ToolTimeoutExhausted) && reason != Some(ToolCleanupUnconfirmed) then current
      else if reason == Some(ModelError) && current.Some? && current != Some(ModelError) then current
      else reason
    case ClearModelError => if current == Some(ModelError) then None else current
    case _ => current
  }

  function ReasonAfter(events: seq<Event>): Option<Reason> {
    if events == [] then None else NextReason(ReasonAfter(events[..|events| - 1]), events[|events| - 1])
  }

  ghost predicate Sets(events: seq<Event>, reason: Reason) {
    exists i :: 0 <= i < |events| && events[i].SetReason? && events[i].reason == Some(reason)
  }

  lemma SetsGrows(events: seq<Event>, reason: Reason)
    requires events != []
    ensures var e := events[|events| - 1];
            Sets(events, reason) <==>
            Sets(events[..|events| - 1], reason) || (e.SetReason? && e.reason == Some(reason))
  {
    var front, e := events[..|events| - 1], events[|events| - 1];
    if Sets(front, reason) {
      var i :| 0 <= i < |front| && front[i].SetReason? && front[i].reason == Some(reason);
      assert events[i].SetReason? && events[i].reason == Some(reason);
    }
    if e.SetReason? && e.reason == Some(reason) {
      assert events[|events| - 1].reason == Some(reason);
    }
  }

  /** An unconfirmed tool cleanup wins over everything, a tool timeout over the rest, whenever they come. */
  lemma {:induction false} ToolReasonsWin(events: seq<Event>)
    ensures ReasonAfter(events) == Some(ToolCleanupUnconfirmed) <==> Sets(events, ToolCleanupUnconfirmed)
    ensures ReasonAfter(events) == Some(ToolTimeoutExhausted) <==>
            Sets(events, ToolTimeoutExhausted) && !Sets(events, ToolCleanupUnconfirmed)
    decreases |events|
  {
    if events != [] {
      ToolReasonsWin(events[..|events| - 1]);
      SetsGrows(events, ToolCleanupUnconfirmed);
      SetsGrows(events, ToolTimeoutExhausted);
    }
  }

  /** Nothing but provider errors is reported. */
  predicate OnlyModelErrors(events: seq<Event>) {
    forall i :: 0 <= i < |events| && events[i].SetReason? ==> events[i].reason == Some(ModelError)
  }

  /** The last report or clearing among `events` is a report. */
  predicate EndsInError(events: seq<Event>) {
    events != [] &&
    var e := events[|events| - 1];
    e.SetReason? || (!e.ClearModelError? && EndsInError(events[..|events| - 1]))
  }

  /**
   * Over any stretch of provider errors, retries and usage: a cause the host
   * set stays, and without one the reason is the provider's exactly while the
   * last error is not retried.
   */
  lemma {:induction false} ModelErrorNeverReplaces(before: seq<Event>, after: seq<Event>)
    requires OnlyModelErrors(after)
    ensures var cause := ReasonAfter(before);
            && (cause.Some? && cause != Some(ModelError) ==> ReasonAfter(before + after) == cause)
            && (cause.None? ==> ReasonAfter(before + after) == if EndsInError(after) then Some(ModelError) else None)
    decreases |after|
  {
    if after == [] {
      assert before + after == before;
    } else {
      var front := after[..|after| - 1];
      ModelErrorNeverReplaces(before, front);
      assert (before + after)[..|before + after| - 1] == before + front;
    }
  }

  /**
   * Every message and every charge has a key of its own, and the two share one
   * exactly when the message's id is the charge's with the prefix before it.
   */
  lemma KeysApart(a: string, b: string, u: Amount, v: Amount)
    ensures KeyOf(Message(a, u)) == KeyOf(Message(b, v)) <==> a == b
    ensures KeyOf(Charge(a, u)) == KeyOf(Charge(b, v)) <==> a == b
    ensures KeyOf(Message(a, u)) == KeyOf(Charge(b, v)) <==> a == "context-compaction:" + b
  {
    assert (CHARGE_PREFIX + a)[|CHARGE_PREFIX|..] == a;
    assert (CHARGE_PREFIX + b)[|CHARGE_PREFIX|..] == b;
  }

  /** Without tool reasons the latest report stands, unless it is a provider error or one is retried. */
  lemma LatestReasonStands(events: seq<Event>, reason: Option<Reason>, detail: Option<string>)
    requires !Sets(events, ToolCleanupUnconfirmed) && !Sets(events, ToolTimeoutExhausted)
    ensures reason != Some(ModelError) ==> ReasonAfter(events + [SetReason(reason, detail)]) == reason
    ensures reason == Some(ModelError) ==>
              ReasonAfter(events + [SetReason(reason, detail)]) ==
              if ReasonAfter(events).None? then reason else ReasonAfter(events)
    ensures ReasonAfter(events + [ClearModelError]) ==
            if ReasonAfter(events) == Some(ModelError) then None else ReasonAfter(events)
    ensures forall e: Event :: e.Message? || e.Charge? ==> ReasonAfter(events + [e]) == ReasonAfter(events)
  {
    ToolReasonsWin(events);
    forall e: Event
      ensures (events + [e])[..|events + [e]| - 1] == events
    {}
    hide Sets;
  }

  // ---------------------------------------------------------------- the class

  class SessionState {
    var usage: Amount
    var seen: set<string>
    var reason: Option<Reason>
    var detail: Option<string>
    const cap: Option<real>
    ghost var history: seq<Event>

    ghost predicate Valid()
      reads this
    {
      && usage == Counted(history, |history|)
      && (forall key :: key in seen <==> exists i :: 0 <= i < |history| && KeyOf(history[i]) == Some(key))
      && reason == ReasonAfter(history)
    }

    constructor (cap: Option<real>)
      ensures Valid() && history == [] && this.cap == cap
    {
      this.cap := cap;
      usage := ZERO;
      seen := {};
      reason := None;
      detail := None;
      history := [];
    }

    /** The session's own cap is reached; further usage never takes that back. */
    predicate CapReached()
      reads this
    {
      cap.Some? && usage.cost >= cap.value
    }

    method AddMessageUsage(id: string, raw: Amount) returns (total: Amount)
      requires Valid()
      modifies this
      ensures Valid() && history == old(history) + [Message(id, raw)]
      ensures total == usage
      ensures reason == old(reason) && detail == old(detail)
      ensures old(CapReached()) && raw.cost >= 0.0 ==> CapReached()
    {
      total := Accumulate(id, Message(id, raw), raw);
    }

    method AddCompactionUsage(chargeId: string, amount: Amount) returns (total: Amount)
      requires Valid()
      modifies this
      ensures Valid() && history == old(history) + [Charge(chargeId, amount)]
      ensures total == usage
      ensures reason == old(reason) && detail == old(detail)
      ensures old(CapReached()) && amount.cost >= 0.0 ==> CapReached()
    {
      total := Accumulate(CHARGE_PREFIX + chargeId, Charge(chargeId, amount), amount);
    }

    method Accumulate(key: string, ghost e: Event, amount: Amount) returns (total: Amount)
      requires Valid() && KeyOf(e) == Some(key) && e.usage == amount
      modifies this
      ensures Valid() && history == old(history) + [e]
      ensures total == usage
      ensures reason == old(reason) && detail == old(detail)
      ensures old(CapReached()) && amount.cost >= 0.0 ==> CapReached()
    {
      HistoryGrows(history, e);
      if key !in seen {
        seen := seen + {key};
        usage := Plus(usage, amount);
      }
      history := history + [e];
      total := usage;
    }

    method SetTerminalReason(newReason: Option<Reason>, failureDetail: Option<string>)
      requires Valid()
      modifies this
      ensures Valid() && history == old(history) + [SetReason(newReason, failureDetail)]
      ensures usage == old(usage) && seen == old(seen)
      ensures detail ==
              if reason != newReason then old(detail)
              else if old(reason) == Some(ToolCleanupUnconfirmed) || old(reason) == Some(ToolTimeoutExhausted) then
                if newReason == Some(ToolCleanupUnconfirmed) && old(reason) == Some(ToolTimeoutExhausted)
                then if failureDetail == Some("") then None else failureDetail else old(detail)
              else if failureDetail.Some? && failureDetail.value != "" then failureDetail
              else if old(reason) != newReason then None else old(detail)
    {
      hide ReasonAfter, Fresh;
      HistoryGrows(history, SetReason(newReason, failureDetail));
      history := history + [SetReason(newReason, failureDetail)];
      if reason == Some(ToolCleanupUnconfirmed) ||
         (reason == Some(ToolTimeoutExhausted) && newReason != Some(ToolCleanupUnconfirmed)) {
        return;
      }
      if newReason == Some(ModelError) && reason.Some? && reason != Some(ModelError) {
        return;
      }
      var didChange := reason != newReason;
      reason := newReason;
      if Given(failureDetail).Some? {
        detail := failureDetail;
      } else if didChange {
        detail := None;
      }
    }

    method ClearRetryableModelError()
      requires Valid()
      modifies this
      ensures Valid() && history == old(history) + [ClearModelError]
      ensures usage == old(usage) && seen == old(seen)
      ensures detail == if old(reason) == Some(ModelError) then None else old(detail)
    {
      HistoryGrows(history, ClearModelError);
      history := history + [ClearModelError];
      if reason != Some(ModelError) {
        return;
      }
      reason := None;
      detail := None;
    }
  }

  /** A detail text that is there and not empty. */
  function Given(detail: Option<string>): Option<string> {
    if detail.Some? && |detail.value| > 0 then detail else None
  }

  lemma HistoryGrows(history: seq<Event>, e: Event)
    ensures var all := history + [e];
            && Counted(all, |history|) == Counted(history, |history|)
            && ReasonAfter(all) == NextReason(ReasonAfter(history), e)
            && (Fresh(all, |history|) <==>
                KeyOf(e).Some? && !exists i :: 0 <= i < |history| && KeyOf(history[i]) == KeyOf(e))
            && forall key :: (exists i :: 0 <= i < |all| && KeyOf(all[i]) == Some(key)) <==>
                             (exists i :: 0 <= i < |history| && KeyOf(history[i]) == Some(key)) || KeyOf(e) == Some(key)
  {
    var all := history + [e];
    assert all[..|history|] == history;
    CountedPrefix(history, e, |history|);
    forall key
      ensures (exists i :: 0 <= i < |all| && KeyOf(all[i]) == Some(key)) <==>
              (exists i :: 0 <= i < |history| && KeyOf(history[i]) == Some(key)) || KeyOf(e) == Some(key)
    {
      if KeyOf(e) == Some(key) {
        assert KeyOf(all[|history|]) == Some(key);
      }
      if i :| 0 <= i < |history| && KeyOf(history[i]) == Some(key) {
        assert KeyOf(all[i]) == Some(key);
      }
    }
    if Fresh(all, |history|) {
      assert forall i :: 0 <= i < |history| ==> all[i] == history[i];
    }
  }

  lemma {:induction false} CountedPrefix(history: seq<Event>, e: Event, n: nat)
    requires n <= |history|
    ensures Counted(history + [e], n) == Counted(history, n)
    decreases n
  {
    if n > 0 {
      CountedPrefix(history, e, n - 1);
      assert forall i :: 0 <= i < n ==> (history + [e])[i] == history[i];
    }
  }
}
