/**
 * What any log a run or a recovery can leave behind satisfies: sessions start
 * once, end at most once and after they started, and a snapshot names a live
 * session only. The reading is a fold, so it holds of every cut by construction.
 */
module Ledger {
  import opened Wrappers
  import opened Machine
  import opened Protocol

  /** The session a lifecycle record speaks of; sentinel files name none. */
  function SessionOf(ident: Ident): Option<nat> {
    if ident.logical.Some? then ident.logical
    else if ident.file.Own? then Some(ident.file.id)
    else None
  }

  predicate Genuine(ident: Ident) {
    if ident.logical.Some? then ident.file.Shared? else ident.file.Own?
  }

  datatype Book = Book(starts: map<nat, Record>, ended: set<nat>, named: set<nat>, ok: bool)

  ghost predicate Named(cp: Checkpoint, id: nat) {
    cp.active.Some? && cp.active.value.id == id
  }

  /** A snapshot may name only a started, unfinished session, and forgets only finished ones. */
  ghost predicate SnapshotFits(b: Book, cp: Checkpoint) {
    && (cp.active.Some? ==>
          var a := cp.active.value;
          a.id in b.starts && b.starts[a.id].Started? && b.starts[a.id].role == a.role &&
          b.starts[a.id].ident.file == a.file && a.id !in b.ended)
    && (forall id :: id in b.named ==> id in b.ended || Named(cp, id))
  }

  ghost function Enter(b: Book, r: Record): Book {
    match r
    case Started(_, _, _, ident, _) =>
      var id := SessionOf(ident);
      if id.None? || !Genuine(ident) || id.value in b.starts then b.(ok := false)
      else b.(starts := b.starts[id.value := r])
    case Terminal(_, role, _, _, ident, _, _) =>
      var id := SessionOf(ident);
      if id.None? then b
      else if id.value !in b.starts || id.value in b.ended ||
              !(b.starts[id.value].Started? && b.starts[id.value].ident == ident && b.starts[id.value].role == role)
      then b.(ok := false)
      else b.(ended := b.ended + {id.value})
    case Snapshot(cp) =>
      if !SnapshotFits(b, cp) then b.(ok := false)
      else if cp.active.Some? then b.(named := b.named + {cp.active.value.id})
      else b
    case _ => b
  }

  ghost function BookOf(log: seq<Record>): Book {
    if log == [] then Book(map[], {}, {}, true)
    else Enter(BookOf(log[..|log| - 1]), log[|log| - 1])
  }

  lemma BookAppend(log: seq<Record>, r: Record)
    ensures BookOf(log + [r]) == Enter(BookOf(log), r)
  {
    assert (log + [r])[..|log + [r]| - 1] == log;
  }

  lemma BookAppendTwo(log: seq<Record>, r: Record, s: Record)
    ensures BookOf(log + [r, s]) == Enter(Enter(BookOf(log), r), s)
  {
    BookAppend(log, r);
    BookAppend(log + [r], s);
    assert log + [r, s] == log + [r] + [s];
  }

  lemma {:induction false} CutKeepsOk(log: seq<Record>, k: nat)
    requires k <= |log| && BookOf(log).ok
    ensures BookOf(log[..k]).ok
    ensures BookOf(log[..k]).starts.Keys <= BookOf(log).starts.Keys
    ensures BookOf(log[..k]).ended <= BookOf(log).ended
    ensures BookOf(log[..k]).named <= BookOf(log).named
    decreases |log|
  {
    if k < |log| {
      var n := |log| - 1;
      CutKeepsOk(log[..n], k);
      assert log[..n][..k] == log[..k];
    } else {
      assert log[..k] == log;
    }
  }

  /** Starts are filed under their own session. */
  lemma {:induction false} StartsFiled(log: seq<Record>)
    requires BookOf(log).ok
    ensures var b := BookOf(log);
            && (forall id :: id in b.starts ==>
                  b.starts[id].Started? && SessionOf(b.starts[id].ident) == Some(id) && Genuine(b.starts[id].ident))
            && b.ended <= b.starts.Keys
    decreases |log|
  {
    if log != [] {
      CutKeepsOk(log, |log| - 1);
      StartsFiled(log[..|log| - 1]);
    }
  }

  /** The backward scan finds the one start of the session a snapshot names. */
  lemma {:induction false} ScanFindsStart(log: seq<Record>, a: Active)
    requires BookOf(log).ok && a.id in BookOf(log).starts
    requires BookOf(log).starts[a.id].Started? && BookOf(log).starts[a.id].ident.file == a.file
    ensures LatestStart(log, a).Some? && LatestStart(log, a).value < |log|
    ensures log[LatestStart(log, a).value] == BookOf(log).starts[a.id]
    decreases |log|
  {
    StartsFiled(log);
    var n := |log| - 1;
    CutKeepsOk(log, n);
    StartsFiled(log[..n]);
    if StartMatches(log[n], a) {
      assert SessionOf(log[n].ident) == Some(a.id);
    } else {
      ScanFindsStart(log[..n], a);
    }
  }

  /** The forward scan for a terminal answers whether the session ended. */
  lemma {:induction false} ScanFindsTerminal(log: seq<Record>, a: Active)
    requires BookOf(log).ok && a.id in BookOf(log).starts
    requires BookOf(log).starts[a.id].Started? && BookOf(log).starts[a.id].ident.file == a.file
    ensures LatestStart(log, a).Some? && LatestStart(log, a).value < |log|
    ensures log[LatestStart(log, a).value].Started?
    ensures HasTerminal(log, LatestStart(log, a).value, a) <==> a.id in BookOf(log).ended
    decreases |log|
  {
    ScanFindsStart(log, a);
    StartsFiled(log);
    var n := |log| - 1;
    var i := LatestStart(log, a).value;
    CutKeepsOk(log, n);
    StartsFiled(log[..n]);
    if i == n {
      assert SessionOf(log[n].ident) == Some(a.id);
    } else {
      var cut := log[..n];
      assert LatestStart(cut, a) == Some(i) by {
        assert !StartMatches(log[n], a);
      }
      LatestStartIsStart(cut, a);
      assert a.id in BookOf(cut).starts by {
        assert cut[i] == log[i];
        StartIsFiled(cut, i);
      }
      assert BookOf(cut).starts[a.id] == BookOf(log).starts[a.id];
      ScanFindsTerminal(cut, a);
      assert TerminalMatches(log[n], log[i], a) <==> log[n].Terminal? && SessionOf(log[n].ident) == Some(a.id) by {
        if log[n].Terminal? && SessionOf(log[n].ident) == Some(a.id) {
          assert BookOf(cut).starts[a.id].ident == log[n].ident;
        }
      }
      if HasTerminal(cut, i, a) {
        var k :| i < k < n && TerminalMatches(cut[k], cut[i], a);
        assert TerminalMatches(log[k], log[i], a);
      }
      if HasTerminal(log, i, a) {
        var k :| i < k < |log| && TerminalMatches(log[k], log[i], a);
        if k < n {
          assert TerminalMatches(cut[k], cut[i], a);
        }
      }
    }
  }

  lemma {:induction false} StartIsFiled(log: seq<Record>, i: nat)
    requires BookOf(log).ok && i < |log| && log[i].Started?
    ensures SessionOf(log[i].ident).Some? && SessionOf(log[i].ident).value in BookOf(log).starts
    ensures BookOf(log).starts[SessionOf(log[i].ident).value] == log[i]
    decreases |log|
  {
    var n := |log| - 1;
    CutKeepsOk(log, n);
    if i < n {
      StartIsFiled(log[..n], i);
    }
  }

  // ---------------------------------------------------------------- read as plain counts

  function Starts(log: seq<Record>, id: nat): nat {
    if log == [] then 0
    else
      var r := log[|log| - 1];
      Starts(log[..|log| - 1], id) + if r.Started? && SessionOf(r.ident) == Some(id) then 1 else 0
  }

  function Terminals(log: seq<Record>, id: nat): nat {
    if log == [] then 0
    else
      var r := log[|log| - 1];
      Terminals(log[..|log| - 1], id) + if r.Terminal? && SessionOf(r.ident) == Some(id) then 1 else 0
  }

  /** Some persisted snapshot names the session as active. */
  ghost predicate EverNamed(log: seq<Record>, id: nat) {
    exists i :: 0 <= i < |log| && log[i].Snapshot? && Named(log[i].checkpoint, id)
  }

  lemma {:induction false} BookCounts(log: seq<Record>, id: nat)
    requires BookOf(log).ok
    ensures Starts(log, id) == if id in BookOf(log).starts then 1 else 0
    ensures Terminals(log, id) == if id in BookOf(log).ended then 1 else 0
    ensures Terminals(log, id) <= Starts(log, id)
    ensures EverNamed(log, id) <==> id in BookOf(log).named
    decreases |log|
  {
    StartsFiled(log);
    if log != [] {
      var n := |log| - 1;
      CutKeepsOk(log, n);
      BookCounts(log[..n], id);
      if EverNamed(log[..n], id) {
        var i :| 0 <= i < n && log[..n][i].Snapshot? && Named(log[..n][i].checkpoint, id);
        assert log[i].Snapshot? && Named(log[i].checkpoint, id);
      }
      if EverNamed(log, id) {
        var i :| 0 <= i < |log| && log[i].Snapshot? && Named(log[i].checkpoint, id);
        if i < n {
          assert log[..n][i].Snapshot? && Named(log[..n][i].checkpoint, id);
        }
      }
      if log[n].Snapshot? && Named(log[n].checkpoint, id) {
        assert EverNamed(log, id);
      }
    }
  }

  // ---------------------------------------------------------------- recovery of one log

  /** The latest snapshot accounts for every named session but the one it names. */
  ghost predicate Settled(log: seq<Record>, cp: Checkpoint) {
    && LatestSnapshot(log) == Some(cp)
    && BookOf(log).ok
    && (cp.active.Some? ==> cp.active.value.id in BookOf(log).starts)
    && (forall id :: id in BookOf(log).named ==> id in BookOf(log).ended || Named(cp, id))
  }

  lemma {:induction false} SettledOfOk(log: seq<Record>)
    requires BookOf(log).ok && LatestSnapshot(log).Some?
    ensures Settled(log, LatestSnapshot(log).value)
    ensures var cp := LatestSnapshot(log).value;
            cp.active.Some? ==>
              var a := cp.active.value;
              && BookOf(log).starts[a.id].Started? && BookOf(log).starts[a.id].role == a.role
              && BookOf(log).starts[a.id].ident.file == a.file
    decreases |log|
  {
    var n := |log| - 1;
    CutKeepsOk(log, n);
    StartsFiled(log);
    if !log[n].Snapshot? {
      SettledOfOk(log[..n]);
    }
  }

  lemma LatestAppend(log: seq<Record>, r: Record)
    ensures LatestSnapshot(log + [r]) == if r.Snapshot? then Some(r.checkpoint) else LatestSnapshot(log)
  {
    assert (log + [r])[..|log + [r]| - 1] == log;
  }

  /**
   * Recovery of any sound log: the log stays sound, every named session has
   * ended, and the checkpoint is the latest one without its session.
   */
  lemma ReconciliationSettles(log: seq<Record>)
    requires BookOf(log).ok && LatestSnapshot(log).Some?
    ensures var cp := LatestSnapshot(log).value;
            var whole := log + Reconciliation(log, cp);
            && BookOf(whole).ok
            && LatestSnapshot(whole) == Some(cp.(active := None))
            && (forall id :: id in BookOf(whole).named ==> id in BookOf(whole).ended)
            && BookOf(whole).starts == BookOf(log).starts
            && BookOf(whole).named == BookOf(log).named
  {
    var cp := LatestSnapshot(log).value;
    SettledOfOk(log);
    if cp.active.None? {
      assert log + Reconciliation(log, cp) == log;
      assert cp.(active := None) == cp;
    } else {
      var a := cp.active.value;
      ScanFindsStart(log, a);
      ScanFindsTerminal(log, a);
      StartsFiled(log);
      var i := LatestStart(log, a).value;
      var cleared := Snapshot(cp.(active := None));
      if HasTerminal(log, i, a) {
        BookAppend(log, cleared);
        LatestAppend(log, cleared);
      } else {
        var lost := Reconciliation(log, cp)[0];
        assert Reconciliation(log, cp) == [lost, cleared];
        BookAppendTwo(log, lost, cleared);
        LatestAppend(log + [lost], cleared);
        assert log + [lost, cleared] == log + [lost] + [cleared];
      }
    }
  }
}
