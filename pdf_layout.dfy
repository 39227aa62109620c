/**
 * The height of the single continuous PDF page: a running estimate over the
 * steps in millimetres, never below the length of an A4 sheet. Only this
 * arithmetic is modelled; the drawing itself is left to the PDF library.
 */
module PdfLayout {
  import opened ProcessTypes
  import StoryIndex
  import ListOps

  const Base: nat := 80
  const A4Height: nat := 297
  /** Characters of scenario text per printed line. */
  const LineWidth: nat := 90

  function Max(a: nat, b: nat): nat {
    if a >= b then a else b
  }

  /** `Math.ceil(n / 90)` for a length `n`: the fewest lines of 90 characters
      that hold `n` characters. */
  function CeilLines(n: nat): (r: nat)
    ensures r * LineWidth >= n
    ensures r == 0 || (r - 1) * LineWidth < n
  {
    (n + LineWidth - 1) / LineWidth
  }

  /** `Math.ceil(Math.max(current / 90, future / 90))`: the lines of the
      longer scenario. */
  function ScenarioLines(step: ProcessStep): (r: nat)
    ensures r * LineWidth >= |step.currentScenario| && r * LineWidth >= |step.futureScenario|
    ensures r == 0 || (r - 1) * LineWidth < |step.currentScenario| || (r - 1) * LineWidth < |step.futureScenario|
  {
    CeilLines(Max(|step.currentScenario|, |step.futureScenario|))
  }

  /** Per card 10 for the user's name and 8 per story. */
  function CardsHeight(cards: seq<UserCard>): nat
    decreases |cards|
  {
    if cards == [] then 0
    else CardsHeight(cards[..|cards| - 1]) + 10 + 8 * |cards[|cards| - 1].stories|
  }

  /** The stories block is drawn only for an improved step that has cards. */
  predicate ShowsStories(step: ProcessStep) {
    !step.noImprovement && |step.userCards| > 0
  }

  /** 25 for the step's header, 7 per scenario line plus 20, the stories
      block with its 15 title, and 10 of padding. */
  function StepHeight(step: ProcessStep): (r: nat)
    ensures r == 55 + 7 * ScenarioLines(step)
                 + (if ShowsStories(step) then 15 + 10 * |step.userCards| + 8 * StoryIndex.CountCardStories(step.userCards) else 0)
  {
    CardsHeightClosed(step.userCards);
    25 + ScenarioLines(step) * 7 + 20
    + (if ShowsStories(step) then 15 + CardsHeight(step.userCards) else 0)
    + 10
  }

  function StepsHeight(steps: seq<ProcessStep>): (r: nat)
    ensures r >= 55 * |steps|
    decreases |steps|
  {
    if steps == [] then 0 else StepsHeight(steps[..|steps| - 1]) + StepHeight(steps[|steps| - 1])
  }

  /** `estimatedHeight` after the loop over the steps. */
  function Estimate(steps: seq<ProcessStep>): (r: nat)
    ensures r >= Base + 55 * |steps|
  {
    Base + StepsHeight(steps)
  }

  // ---------------------------------------------------------------------
  // The loops

  /** `exportToPDF`'s `finalHeight`: the estimate, accumulated step by step,
      card by card, raised to the A4 length when it falls short. */
  method FinalHeight(steps: seq<ProcessStep>) returns (height: nat)
    ensures height == Max(Estimate(steps), A4Height)
    ensures height >= A4Height && height >= Estimate(steps)
  {
    var estimated := Base;
    for i := 0 to |steps|
      invariant estimated == Base + StepsHeight(steps[..i])
    {
      assert steps[..i + 1][..i] == steps[..i];
      var step := steps[i];
      estimated := estimated + 25;
      var lines := CeilLines(Max(|step.currentScenario|, |step.futureScenario|));
      estimated := estimated + lines * 7 + 20;
      if !step.noImprovement && |step.userCards| > 0 {
        estimated := estimated + 15;
        ghost var before := estimated;
        for j := 0 to |step.userCards|
          invariant estimated == before + CardsHeight(step.userCards[..j])
        {
          assert step.userCards[..j + 1][..j] == step.userCards[..j];
          estimated := estimated + 10;
          estimated := estimated + |step.userCards[j].stories| * 8;
        }
        assert step.userCards[..|step.userCards|] == step.userCards;
      }
      estimated := estimated + 10;
    }
    assert steps[..|steps|] == steps;
    height := Max(estimated, A4Height);
  }

  // ---------------------------------------------------------------------
  // What the estimate amounts to

  /** The cards cost 10 each and 8 per story. */
  lemma {:induction false} CardsHeightClosed(cards: seq<UserCard>)
    ensures CardsHeight(cards) == 10 * |cards| + 8 * StoryIndex.CountCardStories(cards)
    decreases |cards|
  {
    if cards != [] {
      CardsHeightClosed(cards[..|cards| - 1]);
    }
  }

  /** A step kept as it is prints no stories: its cards do not count. */
  lemma NoImprovementIgnoresCards(step: ProcessStep, cards: seq<UserCard>)
    requires step.noImprovement
    ensures StepHeight(step.(userCards := cards)) == StepHeight(step)
    ensures StepHeight(step) == 55 + 7 * ScenarioLines(step)
  {
  }

  /** A longer scenario never needs fewer lines. */
  lemma {:induction false} CeilLinesMonotonic(m: nat, n: nat)
    requires m <= n
    ensures CeilLines(m) <= CeilLines(n)
  {
  }

  /** Appending a step makes the page strictly longer. */
  lemma EstimateGrows(steps: seq<ProcessStep>, step: ProcessStep)
    ensures Estimate(steps + [step]) == Estimate(steps) + StepHeight(step)
    ensures Estimate(steps + [step]) > Estimate(steps)
  {
    assert (steps + [step])[..|steps|] == steps;
  }

  /** The height of a list of steps is the sum over its parts. */
  lemma {:induction false} StepsHeightAppend(a: seq<ProcessStep>, b: seq<ProcessStep>)
    ensures StepsHeight(a + b) == StepsHeight(a) + StepsHeight(b)
    decreases |b|
  {
    if b != [] {
      var n := |b| - 1;
      StepsHeightAppend(a, b[..n]);
      assert (a + b)[..|a + b| - 1] == a + b[..n];
    } else {
      assert a + b == a;
    }
  }

  /** Dropping step `i` takes away exactly that step's height. */
  lemma StepsHeightRemoveAt(s: seq<ProcessStep>, i: nat)
    requires i < |s|
    ensures StepsHeight(s) == StepsHeight(ListOps.RemoveAt(s, i)) + StepHeight(s[i])
  {
    var front, x, back := s[..i], s[i], s[i + 1..];
    calc {
      StepsHeight(s);
      == { SplitAt(s, i); }
      StepsHeight((front + [x]) + back);
      == { StepsHeightAppend(front + [x], back); }
      StepsHeight(front + [x]) + StepsHeight(back);
      == { StepsHeightAppend(front, [x]); StepsHeightSingle(x); }
      StepsHeight(front) + StepHeight(x) + StepsHeight(back);
      == { StepsHeightAppend(front, back); }
      StepsHeight(front + back) + StepHeight(x);
      == { assert ListOps.RemoveAt(s, i) == front + back; }
      StepsHeight(ListOps.RemoveAt(s, i)) + StepHeight(x);
    }
  }

  lemma SplitAt(s: seq<ProcessStep>, i: nat)
    requires i < |s|
    ensures s == (s[..i] + [s[i]]) + s[i + 1..]
  {
  }

  lemma StepsHeightSingle(x: ProcessStep)
    ensures StepsHeight([x]) == StepHeight(x)
  {
    assert [x][..0] == [];
  }

  /** Dragging a step to another place in the timeline leaves the page
      height as it was. */
  lemma ReorderKeepsEstimate(s: seq<ProcessStep>, from: nat, to: nat)
    requires from < |s| && to < |s|
    ensures Estimate(ListOps.ArrayMove(s, from, to)) == Estimate(s)
  {
    var r := ListOps.ArrayMove(s, from, to);
    StepsHeightRemoveAt(r, to);
    StepsHeightRemoveAt(s, from);
  }
}
