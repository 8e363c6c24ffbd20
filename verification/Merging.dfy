/** Merging consecutive messages of one role into a turn, as the providers ask
    (llm/anthropic/anthropic.go, `messagesToAnthropic`; llm/google/convert.go,
    `contentsFromMessages`). */
module Merging {

  /** A turn of the model or of the user. */
  datatype Turn<B> = Turn(model: bool, blocks: seq<B>)

  /** `turns` with one message's blocks: they go to the last turn when it has their role. */
  function Join<B>(turns: seq<Turn<B>>, model: bool, blocks: seq<B>): seq<Turn<B>> {
    var last := |turns| - 1;
    if blocks == [] then turns
    else if turns != [] && turns[last].model == model then turns[last := Turn(model, turns[last].blocks + blocks)]
    else turns + [Turn(model, blocks)]
  }

  function Merged<B>(messages: seq<Turn<B>>): seq<Turn<B>> {
    if messages == [] then []
    else
      var m := messages[|messages| - 1];
      Join(Merged(messages[..|messages| - 1]), m.model, m.blocks)
  }

  /** No empty turn, and no two turns of one role in a row. */
  predicate Alternates<B>(turns: seq<Turn<B>>) {
    && (forall i | 0 <= i < |turns| :: turns[i].blocks != [])
    && forall i | 0 < i < |turns| :: turns[i].model != turns[i - 1].model
  }

  /** Every block with the role it is sent under, in order. */
  function Tagged<B>(turns: seq<Turn<B>>): seq<(bool, B)> {
    if turns == [] then [] else Tagged(turns[..|turns| - 1]) + TagAll(turns[|turns| - 1])
  }

  function TagAll<B>(t: Turn<B>): (s: seq<(bool, B)>)
    ensures |s| == |t.blocks|
  {
    seq(|t.blocks|, i requires 0 <= i < |t.blocks| => (t.model, t.blocks[i]))
  }

  lemma TagAllConcat<B>(model: bool, a: seq<B>, b: seq<B>)
    ensures TagAll(Turn(model, a + b)) == TagAll(Turn(model, a)) + TagAll(Turn(model, b))
  {
  }

  lemma {:induction false} JoinKeeps<B>(turns: seq<Turn<B>>, model: bool, blocks: seq<B>)
    requires Alternates(turns)
    ensures Alternates(Join(turns, model, blocks))
    ensures Tagged(Join(turns, model, blocks)) == Tagged(turns) + TagAll(Turn(model, blocks))
  {
    var last := |turns| - 1;
    var next := Join(turns, model, blocks);
    if blocks == [] {
    } else if turns != [] && turns[last].model == model {
      assert next[..last] == turns[..last];
      TagAllConcat(model, turns[last].blocks, blocks);
    } else {
      assert next[..last + 1] == turns;
    }
  }

  /** Merging alternates the roles and loses, moves or re-labels no block. */
  lemma {:induction false} MergedKeeps<B>(messages: seq<Turn<B>>)
    ensures Alternates(Merged(messages))
    ensures Tagged(Merged(messages)) == Tagged(messages)
  {
    if messages != [] {
      var front, m := messages[..|messages| - 1], messages[|messages| - 1];
      MergedKeeps(front);
      JoinKeeps(Merged(front), m.model, m.blocks);
    }
  }

  lemma {:induction false} TaggedNothing<B>(turns: seq<Turn<B>>)
    requires Alternates(turns)
    ensures Tagged(turns) == [] <==> turns == []
  {
  }

  lemma {:induction false} EndsWithLast<B>(turns: seq<Turn<B>>)
    requires turns != [] && turns[|turns| - 1].blocks != []
    ensures Tagged(turns) != [] && Tagged(turns)[|Tagged(turns)| - 1].0 == turns[|turns| - 1].model
  {
  }

  /** The tags of one role that a list ends with are at most its last turn's. */
  lemma {:induction false} RunBound<B>(turns: seq<Turn<B>>, n: nat)
    requires Alternates(turns) && turns != [] && n <= |Tagged(turns)|
    requires var tags := Tagged(turns);
             forall i | |tags| - n <= i < |tags| :: tags[i].0 == turns[|turns| - 1].model
    ensures n <= |turns[|turns| - 1].blocks|
  {
    var front, last := turns[..|turns| - 1], turns[|turns| - 1];
    if front != [] {
      EndsWithLast(front);
      var at := |Tagged(front)| - 1;
      assert Tagged(turns)[at] == Tagged(front)[at];
      assert front[|front| - 1] == turns[|turns| - 2];
    }
  }

  lemma {:induction false} EndsWith<B>(turns: seq<Turn<B>>)
    requires turns != []
    ensures var all, last := Tagged(turns), turns[|turns| - 1];
            && |last.blocks| <= |all|
            && Tagged(turns[..|turns| - 1]) == all[..|all| - |last.blocks|]
            && TagAll(last) == all[|all| - |last.blocks|..]
  {
  }

  lemma {:induction false} SameTags<B>(x: Turn<B>, y: Turn<B>)
    requires TagAll(x) == TagAll(y) && x.model == y.model && |x.blocks| == |y.blocks|
    ensures x == y
  {
    forall i | 0 <= i < |x.blocks|
      ensures x.blocks[i] == y.blocks[i]
    {
      assert TagAll(x)[i] == (x.model, x.blocks[i]) && TagAll(y)[i] == (y.model, y.blocks[i]);
    }
  }

  /** The last turn of a list holds the last tags, as many as are of its role. */
  lemma {:induction false} RunOf<B>(a: seq<Turn<B>>, y: Turn<B>)
    requires Alternates(a) && a != [] && a[|a| - 1].model == y.model
    requires |y.blocks| <= |Tagged(a)| && TagAll(y) == Tagged(a)[|Tagged(a)| - |y.blocks|..]
    ensures |y.blocks| <= |a[|a| - 1].blocks|
  {
    hide Tagged, Alternates;
    var tags := Tagged(a);
    forall i | |tags| - |y.blocks| <= i < |tags|
      ensures tags[i].0 == y.model
    {
      assert tags[i] == TagAll(y)[i - (|tags| - |y.blocks|)];
    }
    RunBound(a, |y.blocks|);
  }

  lemma {:induction false} LastOfTagged<B>(a: seq<Turn<B>>, b: seq<Turn<B>>)
    requires Alternates(a) && Alternates(b) && Tagged(a) == Tagged(b) && a != [] && b != []
    ensures a[|a| - 1] == b[|b| - 1]
    ensures Tagged(a[..|a| - 1]) == Tagged(b[..|b| - 1])
  {
    EndsWithLast(a);
    EndsWithLast(b);
    hide Tagged, Alternates, TagAll;
    EndsWith(a);
    EndsWith(b);
    RunOf(a, b[|b| - 1]);
    RunOf(b, a[|a| - 1]);
    SameTags(a[|a| - 1], b[|b| - 1]);
  }

  /** The roles and blocks alone determine the turns, so there is no other way to merge. */
  lemma {:induction false} MergedUniquely<B>(a: seq<Turn<B>>, b: seq<Turn<B>>)
    requires Alternates(a) && Alternates(b) && Tagged(a) == Tagged(b)
    ensures a == b
    decreases |a|
  {
    TaggedNothing(a);
    TaggedNothing(b);
    if a != [] {
      LastOfTagged(a, b);
      MergedUniquely(a[..|a| - 1], b[..|b| - 1]);
      assert a == a[..|a| - 1] + [a[|a| - 1]];
      assert b == b[..|b| - 1] + [b[|b| - 1]];
    }
  }
}
