/**
 * The tabular view of the steps: a toggle that hides the steps marked "no
 * improvement", drag-and-drop reordering, and adding, editing and deleting
 * steps. Every handler computes the whole document it hands to `onUpdate`.
 */
module ProcessTable {
  import opened Wrappers
  import opened ProcessTypes
  import opened ListOps
  import Timeline
  import App

  /** The step `addStep` creates. The literal in the table sets only the id,
      the name, the two scenarios, the flag and the user cards; the fields it
      leaves out are taken here as empty. */
  function BlankStep(freshId: string): (r: ProcessStep)
    ensures r == App.NewStep(freshId).(name := "")
  {
    ProcessStep(freshId, "", "", "", "", "", [], [], false, None, [], [])
  }

  /** `handleDragEnd`: the same reorder as the timeline's, applied to the
      document's steps; `None` when nothing is emitted. */
  function DragEnd(data: ProcessImprovement, activeId: string, overId: Option<string>): (r: Option<ProcessImprovement>)
    requires data.steps.Some?
    requires overId.Some? && overId.value != activeId ==>
               Timeline.HasStep(data.steps.value, activeId) && Timeline.HasStep(data.steps.value, overId.value)
    ensures r.None? <==> overId.None? || overId.value == activeId
    ensures r.Some? ==> SameExcept(data, r.value, StepsField)
    ensures r.Some? ==> r.value.steps == Timeline.DragEnd(data.steps.value, activeId, overId)
  {
    Emit(data, Timeline.DragEnd(data.steps.value, activeId, overId))
  }

  /** `onUpdate({ ...data, steps })` when there are new steps to emit. */
  function Emit(data: ProcessImprovement, steps: Option<seq<ProcessStep>>): (r: Option<ProcessImprovement>)
    ensures r.Some? <==> steps.Some?
    ensures r.Some? ==> SameExcept(data, r.value, StepsField) && r.value.steps == steps
  {
    if steps.None? then None else Some(WithField(data, SetSteps(steps.value)))
  }

  /** `addStep`: one blank step with the fresh id at the end; nothing else in
      the document changes. */
  function AddStep(data: ProcessImprovement, freshId: string): (r: ProcessImprovement)
    requires data.steps.Some?
    ensures SameExcept(data, r, StepsField)
    ensures r.steps.Some? && |r.steps.value| == |data.steps.value| + 1
    ensures r.steps.value[..|data.steps.value|] == data.steps.value
    ensures var s := r.steps.value[|data.steps.value|];
            s.id == freshId && s.name == "" && s.currentScenario == "" && s.futureScenario == ""
            && !s.noImprovement && s.userCards == []
  {
    WithField(data, SetSteps(data.steps.value + [BlankStep(freshId)]))
  }

  /** `updateStep(index, updatedStep)`: copy the steps, overwrite one slot. */
  method UpdateStep(data: ProcessImprovement, index: nat, updated: ProcessStep) returns (r: ProcessImprovement)
    requires data.steps.Some? && index < |data.steps.value|
    ensures SameExcept(data, r, StepsField)
    ensures r.steps.Some? && |r.steps.value| == |data.steps.value|
    ensures r.steps.value[index] == updated
    ensures forall k :: 0 <= k < |data.steps.value| && k != index ==> r.steps.value[k] == data.steps.value[k]
  {
    var steps := CopyWithAt(data.steps.value, index, updated);
    r := WithField(data, SetSteps(steps));
  }

  /** `deleteStep(index)`: once confirmed, the step at that position goes and
      the others keep their order; otherwise nothing is emitted. */
  function DeleteStep(data: ProcessImprovement, index: nat, confirmed: bool): (r: Option<ProcessImprovement>)
    requires data.steps.Some? && index < |data.steps.value|
    ensures r.Some? <==> confirmed
    ensures r.Some? ==> SameExcept(data, r.value, StepsField)
    ensures r.Some? ==> r.value.steps == Some(data.steps.value[..index] + data.steps.value[index + 1..])
  {
    if confirmed then Some(WithField(data, SetSteps(RemoveAt(data.steps.value, index)))) else None
  }

  /** A step kept by the filter: one that needs improvement. */
  predicate Improves(s: ProcessStep) {
    !s.noImprovement
  }

  /** `visibleSteps`: all steps while the toggle is on, otherwise only the
      steps that need improvement, in document order. */
  function VisibleSteps(steps: seq<ProcessStep>, showNoImprovement: bool): (r: seq<ProcessStep>)
    ensures showNoImprovement ==> r == steps
    ensures !showNoImprovement ==> forall s :: s in r <==> s in steps && !s.noImprovement
    ensures |r| <= |steps|
  {
    if showNoImprovement then steps else Filter(steps, Improves)
  }

  /** `countNoImprovement`: how many steps are marked "no improvement". */
  function CountNoImprovement(steps: seq<ProcessStep>): (r: nat)
    ensures r <= |steps|
    ensures r == 0 <==> forall s :: s in steps ==> !s.noImprovement
  {
    var marked := Filter(steps, (s: ProcessStep) => s.noImprovement);
    assert marked != [] ==> marked[0] in marked;
    |marked|
  }

  /** The count shown next to the toggle is exactly the number of steps the
      toggle hides: together with the filtered list it accounts for every
      step once. */
  lemma {:induction false} CountPlusVisible(steps: seq<ProcessStep>)
    ensures CountNoImprovement(steps) + |VisibleSteps(steps, false)| == |steps|
    ensures multiset(Filter(steps, (s: ProcessStep) => s.noImprovement)) + multiset(VisibleSteps(steps, false))
            == multiset(steps)
  {
    FilterPartition(steps, (s: ProcessStep) => s.noImprovement, Improves);
  }

  /** `realIndex`: each visible row edits and deletes through the position
      of its step in the full list, not in the visible one. That position
      exists and holds a step with the same id; when ids are unique it holds
      the very step shown. */
  lemma RealIndex(steps: seq<ProcessStep>, showNoImprovement: bool, s: ProcessStep)
    requires s in VisibleSteps(steps, showNoImprovement)
    ensures var k := Timeline.IndexOf(steps, s.id);
            0 <= k < |steps| && steps[k].id == s.id
            && (Timeline.UniqueIds(steps) ==> steps[k] == s)
  {
    var j :| 0 <= j < |steps| && steps[j] == s;
    assert Timeline.HasStep(steps, s.id);
  }

  /** The component's own state: whether the hidden steps are shown. */
  class TableView {
    var showNoImprovement: bool

    /** The toggle starts on: every step is shown. */
    constructor()
      ensures showNoImprovement
    {
      showNoImprovement := true;
    }

    /** The switch next to the count. */
    method ToggleShowNoImprovement()
      modifies this
      ensures showNoImprovement == !old(showNoImprovement)
    {
      showNoImprovement := !showNoImprovement;
    }

    /** The rows the table renders for these steps. */
    function Rows(steps: seq<ProcessStep>): (r: seq<ProcessStep>)
      reads this
      ensures showNoImprovement ==> r == steps
      ensures !showNoImprovement ==> forall s :: s in r <==> s in steps && !s.noImprovement
    {
      VisibleSteps(steps, showNoImprovement)
    }
  }
}
