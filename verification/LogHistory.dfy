/** What any sequence of calls keeps: a pruning memory shows what an unpruned one shows,
    cutoffs only move forward, and a reopened file holds what the memory held. */
module LogHistory {
  import opened Messages
  import opened SnapLog
  import opened JsonFile

  /** The state after `ops`. */
  function After(st: State, prune: bool, ops: seq<Op>): State {
    if ops == [] then st else Step(After(st, prune, ops[..|ops| - 1]), prune, ops[|ops| - 1]).0
  }

  /** What the last of `ops` returned. */
  function LastOut(st: State, prune: bool, ops: seq<Op>): Out
    requires ops != []
  {
    Step(After(st, prune, ops[..|ops| - 1]), prune, ops[|ops| - 1]).1
  }

  /** Every message saved since the log was last cleared, by the calls alone. */
  function Saved(full: seq<Message>, ops: seq<Op>): seq<Message> {
    if ops == [] then full
    else
      var before := Saved(full, ops[..|ops| - 1]);
      match ops[|ops| - 1]
      case Save(msgs, persisted) => if persisted then before + msgs else before
      case Clear(_) => []
      case _ => before
  }

  /** offset + len counts all messages saved, and pruning stays behind the snapshot. */
  lemma StepShows(st: State, prune: bool, op: Op, full: seq<Message>)
    requires Shows(st.log, full)
    ensures Shows(Step(st, prune, op).0.log, Saved(full, [op]))
  {
    assert [op][..0] == [];
    if op.SaveSnapshot? {
      var cut := Cutoff(st.log.snapshot, op.prev, op.upTo, st.log.offset + |st.log.messages|);
      CutoffAccepts(st.log.snapshot, op.prev, op.upTo, st.log.offset + |st.log.messages|);
      if cut.Cut? {
        assert full[st.log.offset..][cut.pos + 1 - st.log.offset..] == full[cut.pos + 1..];
      }
    }
  }

  lemma {:induction false} HistoryShows(st: State, prune: bool, ops: seq<Op>, full: seq<Message>)
    requires Shows(st.log, full)
    ensures Shows(After(st, prune, ops).log, Saved(full, ops))
  {
    if ops != [] {
      var front, op := ops[..|ops| - 1], ops[|ops| - 1];
      HistoryShows(st, prune, front, full);
      assert [op][..0] == [];
      assert Saved(full, ops) == Saved(Saved(full, front), [op]);
      StepShows(After(st, prune, front), prune, op, Saved(full, front));
    }
  }

  /** Two logs that show the same messages with the same snapshot answer alike. */
  lemma SameAnswers(a: State, b: State, pruneA: bool, pruneB: bool, op: Op, full: seq<Message>)
    requires Shows(a.log, full) && Shows(b.log, full) && a.log.snapshot == b.log.snapshot
    ensures Step(a, pruneA, op).1 == Step(b, pruneB, op).1
    ensures Step(a, pruneA, op).0.log.snapshot == Step(b, pruneB, op).0.log.snapshot
  {
    hide TailOf;
    TailOfPruned(full, a.log.offset, a.log.snapshot);
    TailOfPruned(full, b.log.offset, b.log.snapshot);
    if op.Retrieve? && a.log.snapshot.None? {
      assert a.log.offset == b.log.offset == 0;
    }
  }

  /** A pruning memory refines the unpruned one: after any calls, every call returns the same
      snapshot, messages and cursors, and the same errors. */
  lemma {:induction false} PruningRefines(st: State, ops: seq<Op>, full: seq<Message>)
    requires Shows(st.log, full)
    ensures After(st, true, ops).log.snapshot == After(st, false, ops).log.snapshot
    ensures ops != [] ==> LastOut(st, true, ops) == LastOut(st, false, ops)
  {
    if ops != [] {
      var front := ops[..|ops| - 1];
      PruningRefines(st, front, full);
      HistoryShows(st, true, front, full);
      HistoryShows(st, false, front, full);
      SameAnswers(After(st, true, front), After(st, false, front), true, false, ops[|ops| - 1], Saved(full, front));
    }
  }

  /** A memory that prunes holds exactly what its snapshot does not cover. */
  lemma {:induction false} PrunedHoldsTheRest(st: State, ops: seq<Op>, full: seq<Message>)
    requires Shows(st.log, full) && st.log.offset == Covered(st.log.snapshot)
    ensures var log := After(st, true, ops).log;
            && log.offset == Covered(log.snapshot) <= |Saved(full, ops)|
            && log.messages == Saved(full, ops)[Covered(log.snapshot)..]
  {
    if ops != [] {
      var front, op := ops[..|ops| - 1], ops[|ops| - 1];
      PrunedHoldsTheRest(st, front, full);
      var log := After(st, true, front).log;
      if op.SaveSnapshot? {
        CutoffAccepts(log.snapshot, op.prev, op.upTo, log.offset + |log.messages|);
      }
    }
    HistoryShows(st, true, ops, full);
  }

  /** No message is held twice over: without pruning the log is the whole history. */
  lemma {:induction false} UnprunedKeepsAll(st: State, ops: seq<Op>, full: seq<Message>)
    requires Shows(st.log, full) && st.log.offset == 0
    ensures After(st, false, ops).log.offset == 0
    ensures After(st, false, ops).log.messages == Saved(full, ops)
  {
    if ops != [] {
      UnprunedKeepsAll(st, ops[..|ops| - 1], full);
      HistoryShows(st, false, ops[..|ops| - 1], full);
    }
  }

  /** The n-th call stored a snapshot. */
  predicate StoredAt(st: State, prune: bool, ops: seq<Op>, n: nat)
    requires n < |ops|
  {
    ops[n].SaveSnapshot? && LastOut(st, prune, ops[..n + 1]) == Done
  }

  predicate NeverCleared(ops: seq<Op>) {
    forall i | 0 <= i < |ops| :: !ops[i].Clear?
  }

  lemma {:induction false} AfterPrefix(st: State, prune: bool, ops: seq<Op>, n: nat)
    requires n < |ops|
    ensures After(st, prune, ops[..n + 1]) == Step(After(st, prune, ops[..n]), prune, ops[n]).0
    ensures LastOut(st, prune, ops[..n + 1]) == Step(After(st, prune, ops[..n]), prune, ops[n]).1
  {
    assert ops[..n + 1][..n] == ops[..n];
  }

  lemma OpAdvances(st: State, prune: bool, op: Op)
    requires !op.Clear?
    ensures Covered(st.log.snapshot) <= Covered(Step(st, prune, op).0.log.snapshot)
    ensures op.SaveSnapshot? && Step(st, prune, op).1 == Done ==>
              Covered(st.log.snapshot) < Covered(Step(st, prune, op).0.log.snapshot)
  {
    if op.SaveSnapshot? {
      CutoffAccepts(st.log.snapshot, op.prev, op.upTo, st.log.offset + |st.log.messages|);
    }
  }

  /** Between clears the cutoff never moves back, and each stored snapshot moves it forward. */
  lemma {:induction false} CutoffAdvances(st: State, prune: bool, ops: seq<Op>, m: nat, n: nat)
    requires NeverCleared(ops) && m <= n <= |ops|
    ensures Covered(After(st, prune, ops[..m]).log.snapshot) <= Covered(After(st, prune, ops[..n]).log.snapshot)
    ensures m < n && StoredAt(st, prune, ops, n - 1) ==>
              Covered(After(st, prune, ops[..m]).log.snapshot) < Covered(After(st, prune, ops[..n]).log.snapshot)
  {
    if m < n {
      CutoffAdvances(st, prune, ops, m, n - 1);
      AfterPrefix(st, prune, ops, n - 1);
      hide After, LastOut, Step;
      OpAdvances(After(st, prune, ops[..n - 1]), prune, ops[n - 1]);
    }
  }

  /** A cutoff is a version number: between clears, no two stored snapshots share one. */
  lemma CutoffsAreNotReused(st: State, prune: bool, ops: seq<Op>, m: nat, n: nat)
    requires NeverCleared(ops) && m < n < |ops|
    requires StoredAt(st, prune, ops, m) && StoredAt(st, prune, ops, n)
    ensures ops[m].upTo != ops[n].upTo
    ensures Position(ops[m].upTo).value < Position(ops[n].upTo).value
  {
    CutoffAdvances(st, prune, ops, m + 1, n + 1);
    StoredSets(st, prune, ops, m);
    StoredSets(st, prune, ops, n);
  }

  lemma StoredSets(st: State, prune: bool, ops: seq<Op>, n: nat)
    requires n < |ops| && StoredAt(st, prune, ops, n)
    ensures var before := After(st, prune, ops[..n]).log.snapshot;
            var after := After(st, prune, ops[..n + 1]).log.snapshot;
            && Same(before, ops[n].prev)
            && after == Some(ops[n].s.(upTo := ops[n].upTo))
            && Position(ops[n].upTo).Some?
  {
    AfterPrefix(st, prune, ops, n);
    var log := After(st, prune, ops[..n]).log;
    CutoffAccepts(log.snapshot, ops[n].prev, ops[n].upTo, log.offset + |log.messages|);
  }

  /** Of any writers that start from the same snapshot, at most one stores its own. */
  lemma OneWriterWins(st: State, prune: bool, ops: seq<Op>, m: nat, n: nat)
    requires NeverCleared(ops) && m < n < |ops|
    requires StoredAt(st, prune, ops, m)
    requires ops[n].SaveSnapshot? && Same(ops[n].prev, ops[m].prev)
    ensures LastOut(st, prune, ops[..n + 1]) == Failed(Refused(SnapshotConflict))
  {
    StoredSets(st, prune, ops, m);
    CutoffAdvances(st, prune, ops, m, m + 1);
    CutoffAdvances(st, prune, ops, m + 1, n);
    AfterPrefix(st, prune, ops, n);
  }

  /** What a memory held was cleared without reaching the file, and no later write put it right. */
  function ClearLost(st: State, prune: bool, ops: seq<Op>): bool {
    if ops == [] then false
    else
      var front := ops[..|ops| - 1];
      match ops[|ops| - 1]
      case Clear(persisted) => !persisted && (ClearLost(st, prune, front) || After(st, prune, front).log != EMPTY_LOG)
      case Save(_, persisted) => !persisted && ClearLost(st, prune, front)
      case _ => ClearLost(st, prune, front)
  }

  /** Reopening the file gives back the memory, whatever calls failed, exactly unless a Clear was
      lost: one whose write failed while the memory held something, with no later message saved. */
  lemma {:induction false} ReopenGivesBackExactly(st: State, prune: bool, ops: seq<Op>)
    requires Decode(st.file) == Some(st.log)
    ensures Decode(After(st, prune, ops).file).Some?
    ensures Decode(After(st, prune, ops).file) == Some(After(st, prune, ops).log) <==> !ClearLost(st, prune, ops)
    ensures ClearLost(st, prune, ops) ==> After(st, prune, ops).log == EMPTY_LOG
  {
    if ops != [] {
      ReopenGivesBackExactly(st, prune, ops[..|ops| - 1]);
      var log := After(st, prune, ops[..|ops| - 1]).log;
      var op := ops[|ops| - 1];
      if op.SaveSnapshot? {
        CutoffAccepts(log.snapshot, op.prev, op.upTo, log.offset + |log.messages|);
      }
    }
  }

  /** A failed Clear after one saved message: the memory is empty, the file is not. */
  lemma FailedClearIsLost(m: Message)
    ensures var ops := [Op.Save([m], true), Op.Clear(false)];
            var end := After(State(EMPTY_LOG, Missing), false, ops);
            end.log == EMPTY_LOG && Decode(end.file) == Some(Log([m], 0, None))
  {
    var ops := [Op.Save([m], true), Op.Clear(false)];
    assert ops[..1] == [Op.Save([m], true)];
    assert ops[..1][..0] == [];
    assert [] + [m] == [m];
    assert After(State(EMPTY_LOG, Missing), false, ops[..1]) == Step(State(EMPTY_LOG, Missing), false, ops[0]).0;
  }
}
