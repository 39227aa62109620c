/**
 * The horizontal timeline of steps: drag-and-drop reordering and the inline
 * editing of a step's name and role. Both handlers compute the list they
 * hand to `onUpdateSteps`.
 */
module Timeline {
  import opened Wrappers
  import opened ProcessTypes
  import opened ListOps
  import Text

  /** Some step carries this id. */
  predicate HasStep(steps: seq<ProcessStep>, id: string) {
    exists k :: 0 <= k < |steps| && steps[k].id == id
  }

  /** `steps.findIndex(s => s.id === id)`: the position of the first step
      with that id, or -1. */
  function IndexOf(steps: seq<ProcessStep>, id: string): (r: int)
    ensures -1 <= r < |steps|
    ensures r >= 0 <==> HasStep(steps, id)
    ensures r >= 0 ==> steps[r].id == id && forall k :: 0 <= k < r ==> steps[k].id != id
  {
    FindIndex(steps, (s: ProcessStep) => s.id == id)
  }

  /** `handleDragEnd`: with no drop target, or dropped on itself, nothing is
      emitted (`None`); otherwise the dragged step is taken out and put back
      at the target's position. Both ids come from the sortable list, so
      both name a step. */
  function DragEnd(steps: seq<ProcessStep>, activeId: string, overId: Option<string>): (r: Option<seq<ProcessStep>>)
    requires overId.Some? && overId.value != activeId ==> HasStep(steps, activeId) && HasStep(steps, overId.value)
    ensures overId.None? || overId.value == activeId ==> r.None?
    ensures overId.Some? && overId.value != activeId ==>
              && r.Some?
              && |r.value| == |steps|
              && multiset(r.value) == multiset(steps)
              && r.value[IndexOf(steps, overId.value)] == steps[IndexOf(steps, activeId)]
              && RemoveAt(r.value, IndexOf(steps, overId.value)) == RemoveAt(steps, IndexOf(steps, activeId))
  {
    if overId.Some? && overId.value != activeId then
      Some(ArrayMove(steps, IndexOf(steps, activeId), IndexOf(steps, overId.value)))
    else
      None
  }

  /** A drag moves steps around but never loses, duplicates or invents one:
      the same ids are present afterwards. */
  lemma {:induction false} DragEndKeepsSteps(steps: seq<ProcessStep>, activeId: string, overId: string, id: string)
    requires overId != activeId && HasStep(steps, activeId) && HasStep(steps, overId)
    ensures HasStep(DragEnd(steps, activeId, Some(overId)).value, id) <==> HasStep(steps, id)
  {
    var r := DragEnd(steps, activeId, Some(overId)).value;
    PermutationHasStep(steps, r, id);
    PermutationHasStep(r, steps, id);
  }

  lemma PermutationHasStep(a: seq<ProcessStep>, b: seq<ProcessStep>, id: string)
    requires multiset(a) == multiset(b)
    ensures HasStep(a, id) ==> HasStep(b, id)
  {
    if HasStep(a, id) {
      var k :| 0 <= k < |a| && a[k].id == id;
      assert a[k] in multiset(b);
      var j :| 0 <= j < |b| && b[j] == a[k];
    }
  }

  /** Dragging the step that now sits at the target's place back onto the
      step that now sits at its old place undoes the move, when ids are
      unique. */
  lemma {:induction false} DragEndBack(steps: seq<ProcessStep>, activeId: string, overId: string)
    requires overId != activeId && HasStep(steps, activeId) && HasStep(steps, overId)
    requires UniqueIds(steps)
    ensures var m := DragEnd(steps, activeId, Some(overId)).value;
            var from, to := IndexOf(steps, activeId), IndexOf(steps, overId);
            UniqueIds(m) && m[to].id == activeId &&
            DragEnd(m, activeId, Some(m[from].id)) == (if from == to then None else Some(steps))
  {
    var from, to := IndexOf(steps, activeId), IndexOf(steps, overId);
    var m := DragEnd(steps, activeId, Some(overId)).value;
    assert m == ArrayMove(steps, from, to);
    UniqueIdsPermutation(steps, m);
    assert m[to] == steps[from];
    if from != to {
      assert IndexOf(m, activeId) == to by { UniqueIdsIndex(m, to); }
      assert m[from].id != activeId;
      assert IndexOf(m, m[from].id) == from by { UniqueIdsIndex(m, from); }
      ArrayMoveBack(steps, from, to);
    }
  }

  /** No two steps share an id. */
  predicate UniqueIds(steps: seq<ProcessStep>) {
    forall i, j :: 0 <= i < j < |steps| ==> steps[i].id != steps[j].id
  }

  lemma UniqueIdsIndex(steps: seq<ProcessStep>, k: nat)
    requires UniqueIds(steps) && k < |steps|
    ensures IndexOf(steps, steps[k].id) == k
  {
  }

  /** A permutation of a list with unique ids has unique ids. */
  lemma {:induction false} UniqueIdsPermutation(a: seq<ProcessStep>, b: seq<ProcessStep>)
    requires UniqueIds(a) && multiset(a) == multiset(b)
    ensures UniqueIds(b)
  {
    forall i, j | 0 <= i < j < |b| ensures b[i].id != b[j].id {
      assert b[i] in multiset(a) && b[j] in multiset(a);
      var p :| 0 <= p < |a| && a[p] == b[i];
      var q :| 0 <= q < |a| && a[q] == b[j];
      SingleOccurrence(a, p);
      assert b == b[..i] + [b[i]] + b[i + 1..j] + [b[j]] + b[j + 1..];
      assert b[i] != b[j];
      assert p != q;
    }
  }

  /** In a list with unique ids, each element occurs once. */
  lemma SingleOccurrence(a: seq<ProcessStep>, p: nat)
    requires UniqueIds(a) && p < |a|
    ensures multiset(a)[a[p]] == 1
  {
    var pre, post := a[..p], a[p + 1..];
    assert a == pre + [a[p]] + post;
    assert a[p] !in pre by {
      forall k | 0 <= k < |pre| ensures pre[k] != a[p] { assert pre[k] == a[k]; }
    }
    assert a[p] !in post by {
      forall k | 0 <= k < |post| ensures post[k] != a[p] { assert post[k] == a[p + 1 + k]; }
    }
  }

  /** The two fields a step card edits in place. */
  datatype StepText = NameText | RoleText

  /** `handleUpdateStep(id, val, field)`: that field of the step(s) with that
      id becomes `val`; every other step, and every other field, is kept. */
  function UpdateStep(steps: seq<ProcessStep>, id: string, val: string, field: StepText): (r: seq<ProcessStep>)
    ensures |r| == |steps|
    ensures forall i :: 0 <= i < |steps| && steps[i].id != id ==> r[i] == steps[i]
    ensures forall i :: 0 <= i < |steps| && steps[i].id == id ==>
              r[i] == (if field == NameText then steps[i].(name := val) else steps[i].(role := val))
  {
    MapWhere(steps, (s: ProcessStep) => s.id == id,
             (s: ProcessStep) => if field == NameText then s.(name := val) else s.(role := val))
  }

  /** The edit keeps ids, so a step found by its id afterwards shows the new
      text. */
  lemma UpdateStepShows(steps: seq<ProcessStep>, id: string, val: string, field: StepText)
    requires HasStep(steps, id)
    ensures var r := UpdateStep(steps, id, val, field);
            HasStep(r, id) &&
            (if field == NameText then r[IndexOf(r, id)].name else r[IndexOf(r, id)].role) == val
  {
    var r := UpdateStep(steps, id, val, field);
    var k :| 0 <= k < |steps| && steps[k].id == id;
    assert r[k].id == id;
  }

  /** The number drawn on a step's dot: its position counted from one. */
  function StepNumber(index: nat): (r: string)
    ensures r != [] && forall i :: 0 <= i < |r| ==> '0' <= r[i] <= '9'
    ensures Text.DecimalValue(r) == index + 1
  {
    Text.NatToStringRoundTrip(index + 1);
    Text.NatToString(index + 1)
  }
}
