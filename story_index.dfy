/**
 * Every user story of the process, in step, card, story order, together
 * with the step and the card it belongs to. The deliverable card's list of
 * linkable stories and the spreadsheet's stories sheet are both built by
 * walking the steps this way, with three nested `forEach` loops.
 */
module StoryIndex {
  import opened ProcessTypes

  /** One story seen from the top: the step and card that hold it. */
  datatype StoryAt = StoryAt(step: ProcessStep, card: UserCard, story: UserStory)

  /** The stories of one card, in order. */
  function CardStories(step: ProcessStep, card: UserCard): (r: seq<StoryAt>)
    ensures |r| == |card.stories|
    ensures forall k :: 0 <= k < |r| ==> r[k] == StoryAt(step, card, card.stories[k])
  {
    seq(|card.stories|, k requires 0 <= k < |card.stories| => StoryAt(step, card, card.stories[k]))
  }

  /** The stories of the first cards of a step, card after card. */
  function StepStories(step: ProcessStep, cards: seq<UserCard>): seq<StoryAt>
    decreases |cards|
  {
    if cards == [] then []
    else StepStories(step, cards[..|cards| - 1]) + CardStories(step, cards[|cards| - 1])
  }

  /** The stories of the first steps, step after step: the specification of
      the flattening loops. */
  function AllStories(steps: seq<ProcessStep>): seq<StoryAt>
    decreases |steps|
  {
    if steps == [] then []
    else AllStories(steps[..|steps| - 1]) + StepStories(steps[|steps| - 1], steps[|steps| - 1].userCards)
  }

  /** Story `k` of card `j` of step `i`. */
  predicate IsStoryOf(steps: seq<ProcessStep>, x: StoryAt, i: int, j: int, k: int) {
    && 0 <= i < |steps|
    && 0 <= j < |steps[i].userCards|
    && 0 <= k < |steps[i].userCards[j].stories|
    && x == StoryAt(steps[i], steps[i].userCards[j], steps[i].userCards[j].stories[k])
  }

  /** A step's list holds exactly the stories of its cards. */
  lemma {:induction false} StepStoriesMembers(step: ProcessStep, cards: seq<UserCard>, x: StoryAt)
    ensures x in StepStories(step, cards) <==>
            exists j, k :: 0 <= j < |cards| && 0 <= k < |cards[j].stories| && x == StoryAt(step, cards[j], cards[j].stories[k])
    decreases |cards|
  {
    if cards != [] {
      var front, last := cards[..|cards| - 1], cards[|cards| - 1];
      StepStoriesMembers(step, front, x);
      if x in CardStories(step, last) {
        var k :| 0 <= k < |last.stories| && CardStories(step, last)[k] == x;
        assert cards[|cards| - 1] == last;
      }
      if exists j, k :: 0 <= j < |cards| && 0 <= k < |cards[j].stories| && x == StoryAt(step, cards[j], cards[j].stories[k]) {
        var j, k :| 0 <= j < |cards| && 0 <= k < |cards[j].stories| && x == StoryAt(step, cards[j], cards[j].stories[k]);
        if j < |cards| - 1 {
          assert cards[j] == front[j];
        } else {
          assert CardStories(step, last)[k] == x;
        }
      }
    }
  }

  /** The flattened list holds exactly the stories of the process: nothing
      is left out and nothing is made up. */
  lemma {:induction false} AllStoriesMembers(steps: seq<ProcessStep>, x: StoryAt)
    ensures x in AllStories(steps) <==> exists i, j, k :: IsStoryOf(steps, x, i, j, k)
    decreases |steps|
  {
    if steps != [] {
      var front, last := steps[..|steps| - 1], steps[|steps| - 1];
      AllStoriesMembers(front, x);
      StepStoriesMembers(last, last.userCards, x);
      if x in StepStories(last, last.userCards) {
        var j, k :| 0 <= j < |last.userCards| && 0 <= k < |last.userCards[j].stories|
                    && x == StoryAt(last, last.userCards[j], last.userCards[j].stories[k]);
        assert IsStoryOf(steps, x, |steps| - 1, j, k);
      }
      if x in AllStories(front) {
        var i, j, k :| IsStoryOf(front, x, i, j, k);
        assert IsStoryOf(steps, x, i, j, k);
      }
      if exists i, j, k :: IsStoryOf(steps, x, i, j, k) {
        var i, j, k :| IsStoryOf(steps, x, i, j, k);
        if i < |steps| - 1 {
          assert IsStoryOf(front, x, i, j, k);
        }
      }
    }
  }

  /** The number of stories of the process. */
  function CountStories(steps: seq<ProcessStep>): nat
    decreases |steps|
  {
    if steps == [] then 0 else CountStories(steps[..|steps| - 1]) + CountCardStories(steps[|steps| - 1].userCards)
  }

  function CountCardStories(cards: seq<UserCard>): nat
    decreases |cards|
  {
    if cards == [] then 0 else CountCardStories(cards[..|cards| - 1]) + |cards[|cards| - 1].stories|
  }

  /** One entry per story: the list is as long as there are stories. */
  lemma {:induction false} AllStoriesCount(steps: seq<ProcessStep>)
    ensures |AllStories(steps)| == CountStories(steps)
    decreases |steps|
  {
    if steps != [] {
      AllStoriesCount(steps[..|steps| - 1]);
      StepStoriesCount(steps[|steps| - 1], steps[|steps| - 1].userCards);
    }
  }

  lemma {:induction false} StepStoriesCount(step: ProcessStep, cards: seq<UserCard>)
    ensures |StepStories(step, cards)| == CountCardStories(cards)
    decreases |cards|
  {
    if cards != [] {
      StepStoriesCount(step, cards[..|cards| - 1]);
    }
  }

  /** Flattening distributes over concatenation of step lists. */
  lemma {:induction false} AllStoriesAppend(a: seq<ProcessStep>, b: seq<ProcessStep>)
    ensures AllStories(a + b) == AllStories(a) + AllStories(b)
    decreases |b|
  {
    if b == [] {
      assert a + b == a;
    } else {
      AllStoriesAppend(a, b[..|b| - 1]);
      LastOfAppend(a, b);
    }
  }

  lemma LastOfAppend<T>(a: seq<T>, b: seq<T>)
    requires b != []
    ensures (a + b)[..|a + b| - 1] == a + b[..|b| - 1] && (a + b)[|a + b| - 1] == b[|b| - 1]
  {
  }

  /** A step whose cards hold no story adds nothing to the flattened list,
      wherever it stands. */
  lemma StorylessStepAddsNothing(steps: seq<ProcessStep>, i: nat)
    requires i < |steps| && CountCardStories(steps[i].userCards) == 0
    ensures AllStories(steps) == AllStories(steps[..i] + steps[i + 1..])
  {
    var front, x, back := steps[..i], steps[i], steps[i + 1..];
    SplitAround(steps, i);
    StorylessSingleton(x);
    AllStoriesAppend(front + [x], back);
    AllStoriesAppend(front, [x]);
    AllStoriesAppend(front, back);
  }

  lemma SplitAround<T>(s: seq<T>, i: nat)
    requires i < |s|
    ensures s == s[..i] + [s[i]] + s[i + 1..]
  {
  }

  lemma StorylessSingleton(x: ProcessStep)
    requires CountCardStories(x.userCards) == 0
    ensures AllStories([x]) == []
  {
    assert [x][..0] == [];
    StepStoriesCount(x, x.userCards);
  }

  /** `r` is `xs` with `f` applied to each element. */
  ghost predicate Mapped<T>(r: seq<T>, xs: seq<StoryAt>, f: StoryAt -> T) {
    |r| == |xs| && forall m :: 0 <= m < |r| ==> r[m] == f(xs[m])
  }

  lemma MappedAppend<T>(r1: seq<T>, xs1: seq<StoryAt>, r2: seq<T>, xs2: seq<StoryAt>, f: StoryAt -> T)
    requires Mapped(r1, xs1, f) && Mapped(r2, xs2, f)
    ensures Mapped(r1 + r2, xs1 + xs2, f)
  {
    forall m | 0 <= m < |r1 + r2| ensures (r1 + r2)[m] == f((xs1 + xs2)[m]) {
      if m >= |r1| {
        assert (r1 + r2)[m] == r2[m - |r1|];
      }
    }
  }

  /** The three nested loops: each story, in order, turned into an entry by
      `f`. */
  method CollectStories<T>(steps: seq<ProcessStep>, f: StoryAt -> T) returns (r: seq<T>)
    ensures |r| == |AllStories(steps)|
    ensures forall m :: 0 <= m < |r| ==> r[m] == f(AllStories(steps)[m])
  {
    r := [];
    for i := 0 to |steps|
      invariant Mapped(r, AllStories(steps[..i]), f)
    {
      assert steps[..i + 1][..i] == steps[..i];
      var more := CollectStepStories(steps[i], f);
      MappedAppend(r, AllStories(steps[..i]), more, StepStories(steps[i], steps[i].userCards), f);
      r := r + more;
    }
    assert steps[..|steps|] == steps;
  }

  /** The two inner loops, over the cards of one step and their stories. */
  method CollectStepStories<T>(step: ProcessStep, f: StoryAt -> T) returns (r: seq<T>)
    ensures Mapped(r, StepStories(step, step.userCards), f)
  {
    r := [];
    for j := 0 to |step.userCards|
      invariant Mapped(r, StepStories(step, step.userCards[..j]), f)
    {
      var card := step.userCards[j];
      assert step.userCards[..j + 1][..j] == step.userCards[..j];
      ghost var before := r;
      for k := 0 to |card.stories|
        invariant |r| == |before| + k
        invariant r[..|before|] == before
        invariant forall m :: 0 <= m < k ==> r[|before| + m] == f(StoryAt(step, card, card.stories[m]))
      {
        r := r + [f(StoryAt(step, card, card.stories[k]))];
      }
      assert Mapped(r[|before|..], CardStories(step, card), f);
      assert r == before + r[|before|..];
      MappedAppend(before, StepStories(step, step.userCards[..j]), r[|before|..], CardStories(step, card), f);
    }
    assert step.userCards[..|step.userCards|] == step.userCards;
  }
}
