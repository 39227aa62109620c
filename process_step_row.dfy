/**
 * One row of the process table: a step with its "no improvement" switch and
 * an expandable panel of user cards. Editing and deleting a card go through
 * the same copy-and-assign and index filter as the step detail panel
 * (`StepDetails.UpdateUserCard`, `StepDetails.DeleteUserCard`).
 */
module ProcessStepRow {
  import opened ProcessTypes
  import StepDetails

  /** `toggleNoImprovement`: only the flag flips. */
  function ToggleNoImprovement(step: ProcessStep): (r: ProcessStep)
    ensures r.noImprovement != step.noImprovement
    ensures r.(noImprovement := step.noImprovement) == step
  {
    step.(noImprovement := !step.noImprovement)
  }

  /** Two presses restore the step. */
  lemma ToggleNoImprovementTwice(step: ProcessStep)
    ensures ToggleNoImprovement(ToggleNoImprovement(step)) == step
  {
  }

  /** `userCount`: the number shown next to the users icon. */
  function UserCount(step: ProcessStep): nat {
    |step.userCards|
  }

  /** The count follows the row's card edits: adding a card raises it by
      one, a confirmed deletion lowers it by one, a refused one keeps the
      step as it was. */
  lemma UserCountFollowsCards(step: ProcessStep, freshId: string, index: nat, confirmed: bool)
    requires index < |step.userCards|
    ensures UserCount(StepDetails.AddUserCard(step, freshId)) == UserCount(step) + 1
    ensures confirmed ==> UserCount(StepDetails.DeleteUserCard(step, index, confirmed).value) == UserCount(step) - 1
    ensures !confirmed ==> StepDetails.DeleteUserCard(step, index, confirmed).None?
  {
  }

  /** The row's own state: whether the story panel is expanded. */
  class StepRow {
    var isExpanded: bool

    constructor()
      ensures !isExpanded
    {
      isExpanded := false;
    }

    /** The chevron: flips the panel, but the button is disabled while the
        step is marked "no improvement". */
    method ToggleExpand(step: ProcessStep)
      modifies this
      ensures isExpanded == (if step.noImprovement then old(isExpanded) else !old(isExpanded))
    {
      if !step.noImprovement {
        isExpanded := !isExpanded;
      }
    }

    /** `addUserCard`: one empty card at the end, and the panel opens. */
    method AddUserCard(step: ProcessStep, freshId: string) returns (emitted: ProcessStep)
      modifies this
      ensures emitted == StepDetails.AddUserCard(step, freshId)
      ensures isExpanded
    {
      emitted := StepDetails.AddUserCard(step, freshId);
      isExpanded := true;
    }

    /** The story panel shows only while expanded and for a step that needs
        improvement. */
    function ShowsStories(step: ProcessStep): (r: bool)
      reads this
      ensures r ==> isExpanded
      ensures step.noImprovement ==> !r
      ensures isExpanded && !step.noImprovement ==> r
    {
      isExpanded && !step.noImprovement
    }
  }
}
