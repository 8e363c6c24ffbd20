/** Where a conversation may be cut (memory/split.go). */
module Split {
  import opened Messages
  import SnapLog

  /** The first index at or after `i`, clamped to the conversation, that is not a tool result. */
  function SplitAt(msgs: seq<Message>, i: int): (j: nat)
    ensures j <= |msgs|
    decreases |msgs| - i
  {
    if i < 0 then SplitAt(msgs, 0)
    else if i >= |msgs| then |msgs|
    else if msgs[i].role == Tool then SplitAt(msgs, i + 1)
    else i
  }

  method SplitPoint(msgs: seq<Message>, want: int) returns (j: nat)
    ensures j == SplitAt(msgs, want)
    ensures j <= |msgs| && (want <= |msgs| ==> want <= j)
    ensures j < |msgs| ==> msgs[j].role != Tool
    ensures forall k | 0 <= k && want <= k < j :: msgs[k].role == Tool
  {
    j := SnapLog.Max(0, SnapLog.Min(want, |msgs|));
    while j < |msgs| && msgs[j].role == Tool
      invariant 0 <= j <= |msgs| && SplitAt(msgs, j) == SplitAt(msgs, want)
      invariant want <= |msgs| ==> want <= j
      invariant forall k | 0 <= k && want <= k < j :: msgs[k].role == Tool
    {
      j := j + 1;
    }
  }

  lemma {:induction false} SplitAtFacts(msgs: seq<Message>, i: int)
    ensures var j := SplitAt(msgs, i);
            && (i <= |msgs| ==> i <= j)
            && (j < |msgs| ==> msgs[j].role != Tool)
            && forall k | 0 <= k && i <= k < j :: msgs[k].role == Tool
    decreases |msgs| - i
  {
    if i < 0 {
      SplitAtFacts(msgs, 0);
    } else if i < |msgs| && msgs[i].role == Tool {
      SplitAtFacts(msgs, i + 1);
    }
  }

  /** In a closed conversation, the split leaves both sides closed, and it is the first index
      from the wanted one on that does. */
  lemma SplitKeepsRoundsWhole(msgs: seq<Message>, want: nat)
    requires Closed(msgs) && want <= |msgs|
    ensures var j := SplitAt(msgs, want);
            && want <= j
            && Closed(msgs[..j]) && Closed(msgs[j..])
            && forall k | want <= k < j :: !Closed(msgs[..k]) && !Closed(msgs[k..])
  {
    var j := SplitAt(msgs, want);
    SplitAtFacts(msgs, want);
    ClosedSplit(msgs, j);
    forall k | want <= k < j
      ensures !Closed(msgs[..k]) && !Closed(msgs[k..])
    {
      ClosedCutOnlyBetweenRounds(msgs, k);
    }
  }
}
