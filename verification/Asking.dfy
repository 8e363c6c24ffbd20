/** What a session was last asked (agent/compact.go, `SummaryCompactor.Compact` and
    `lastUserMessage`), and what keeps it there: compactions, rounds, saves and reloads. */
module Asking {
  import opened Messages
  import opened SnapLog
  import opened Alignment
  import opened Turns
  import opened Compact

  /** A compactor leaves what the session was last asked among the messages it keeps or pins. */
  ghost predicate KeepsTask(compactor: Compactor) {
    forall n, input :: KeepsTaskOn(compactor(n, input), input)
  }

  ghost predicate KeepsTaskOn(r: CompactResult, input: CompactInput) {
    r.Compacted? && CheckOf(r.compaction, input).Valid? ==>
      Task(Held(Some(r.compaction.snapshot), r.compaction.kept)) == Task(Held(input.previous, input.messages))
  }

  /** A SummaryCompactor does, whatever its model writes. */
  lemma SummaryKeepsTask(config: nat -> Config)
    ensures KeepsTask(SummaryCompactor(config))
  {
    forall n: nat, input: CompactInput
      ensures KeepsTaskOn(Summarized(config(n), input), input)
    {
      CompactKeepsTask(Held(input.previous, input.messages), config(n), input.keepTokens);
    }
  }

  lemma {:induction false} LastUserOfReplayable(msgs: seq<Message>)
    ensures LastUser(Replayable(msgs)) == LastUser(msgs)
  {
    if msgs != [] {
      var n := |msgs| - 1;
      assert msgs == msgs[..n] + [msgs[n]];
      ReplayableConcat(msgs[..n], [msgs[n]]);
      LastUserOfReplayable(msgs[..n]);
      ReplayableOfOne(msgs[n]);
      LastUserConcat(Replayable(msgs[..n]), Replayable([msgs[n]]));
      LastUserConcat(msgs[..n], [msgs[n]]);
    }
  }

  lemma ReplayableOfOne(m: Message)
    ensures LastUser(Replayable([m])) == LastUser([m])
  {
    assert [m][1..] == [];
  }

  lemma {:induction false} LastUserOfDropTools(msgs: seq<Message>)
    ensures LastUser(DropTools(msgs)) == LastUser(msgs)
  {
    if msgs != [] && msgs[0].role == Tool {
      LastUserOfDropTools(msgs[1..]);
      assert msgs == [msgs[0]] + msgs[1..];
      LastUserConcat([msgs[0]], msgs[1..]);
      assert [msgs[0]][..0] == [];
    }
  }

  /** What a run loads has the log's last user message past the cutoff. */
  lemma LastUserOfLoads(full: seq<Message>, n: nat)
    requires n <= |full|
    ensures LastUser(Loads(full, n)) == LastUser(full[n..])
  {
    LastUserOfReplayable(DropTools(full[n..]));
    LastUserOfDropTools(full[n..]);
  }

  lemma LastUserOfSuffix(msgs: seq<Message>, k: nat)
    requires k <= |msgs|
    ensures LastUser(msgs) == OrElse(LastUser(msgs[k..]), LastUser(msgs[..k]))
  {
    assert msgs == msgs[..k] + msgs[k..];
    LastUserConcat(msgs[..k], msgs[k..]);
  }

  lemma {:induction false} SameRolesSameUsers(a: seq<Message>, b: seq<Message>)
    requires |a| == |b| && forall i | 0 <= i < |a| :: a[i].role == b[i].role
    ensures LastUser(a).Some? <==> LastUser(b).Some?
  {
    if a != [] {
      SameRolesSameUsers(a[..|a| - 1], b[..|b| - 1]);
    }
  }

  lemma AlignedUsers(a: seq<Message>, b: seq<Message>)
    requires Aligned(a, b)
    ensures LastUser(a).Some? <==> LastUser(b).Some?
  {
    forall i | 0 <= i < |a|
      ensures a[i].role == b[i].role
    {
      assert Matches(a[i], b[i]);
    }
    SameRolesSameUsers(a, b);
  }

  /** A round asks nothing. */
  lemma RoundAsksNothing(reply: Reply)
    ensures LastUser(Round(reply)) == None
  {
    LastUserExists(Round(reply));
  }

  // ---- what a memory's next run is asked

  /** What the next run is last asked by the log `full` and its snapshot, before it gets an input. */
  function TaskOfLog(full: seq<Message>, snapshots: bool, snapshot: Option<Snapshot>): Option<Message> {
    if snapshots && Covered(snapshot) <= |full| then Task(Held(snapshot, Loads(full, Covered(snapshot))))
    else LastUser(full)
  }

  lemma OrElseAssociates(a: Option<Message>, b: Option<Message>, c: Option<Message>)
    ensures OrElse(OrElse(a, b), c) == OrElse(a, OrElse(b, c))
  {
  }

  /** Saving messages asks what they ask. */
  lemma TaskWhenSaved(full: seq<Message>, snapshots: bool, snapshot: Option<Snapshot>, turn: seq<Message>)
    requires snapshots ==> Covered(snapshot) <= |full|
    ensures TaskOfLog(full + Replayable(turn), snapshots, snapshot) ==
            OrElse(LastUser(turn), TaskOfLog(full, snapshots, snapshot))
  {
    hide LastUser, Replayable, Loads, Covered;
    var more := Replayable(turn);
    LastUserOfReplayable(turn);
    if snapshots {
      LoadsWhenSaved(full, Covered(snapshot), more);
    } else {
      LastUserConcat(full, more);
    }
  }

  lemma LoadsWhenSaved(full: seq<Message>, n: nat, more: seq<Message>)
    requires n <= |full|
    ensures LastUser(Loads(full + more, n)) == OrElse(LastUser(more), LastUser(Loads(full, n)))
  {
    hide LastUser, Replayable, Loads;
    LastUserOfLoads(full, n);
    LastUserOfLoads(full + more, n);
    assert (full + more)[n..] == full[n..] + more;
    LastUserConcat(full[n..], more);
  }

  /** When what is loaded past a snapshot's cutoff lines up with the kept messages, storing it asks
      what the log asked. */
  lemma TaskWhenStored(full: seq<Message>, earlier: Option<Snapshot>, s: Snapshot, kept: seq<Message>)
    requires Covered(earlier) <= Covered(Some(s)) <= |full|
    requires Aligned(Loads(full, Covered(Some(s))), kept)
    requires Task(Held(Some(s), kept)) == TaskOfLog(full, true, earlier)
    ensures TaskOfLog(full, true, Some(s)) == TaskOfLog(full, true, earlier)
  {
    var m, n := Covered(earlier), Covered(Some(s));
    LastUserOfLoads(full, m);
    LastUserOfLoads(full, n);
    AlignedUsers(Loads(full, n), kept);
    assert full[m..][n - m..] == full[n..];
    LastUserOfSuffix(full[m..], n - m);
  }
}
