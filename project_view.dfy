/**
 * The project view: the list of deliverables and the list of requirements.
 * Each handler yields the field and value it hands to `onUpdate(field,
 * value)`; the text box for a new requirement is the view's own state.
 */
module ProjectView {
  import opened Wrappers
  import opened ProcessTypes
  import opened ListOps
  import opened ListInput
  import Text

  /** `data.requirements || []` */
  function Requirements(data: ProcessImprovement): (r: seq<string>)
    ensures data.requirements.None? ==> r == []
    ensures data.requirements.Some? ==> r == data.requirements.value
  {
    data.requirements.GetOr([])
  }

  /** `addDeliverable`: one deliverable titled 'Nova Entrega', with no
      description and no linked stories, at the end. */
  function AddDeliverable(data: ProcessImprovement, freshId: string): (r: FieldValue)
    ensures r.SetDeliverables?
    ensures |r.deliverables| == |data.deliverables| + 1
    ensures r.deliverables[..|data.deliverables|] == data.deliverables
    ensures r.deliverables[|data.deliverables|] == Deliverable(freshId, "Nova Entrega", "", [])
  {
    SetDeliverables(data.deliverables + [Deliverable(freshId, "Nova Entrega", "", [])])
  }

  /** `updateDeliverable(updated)`: every deliverable with the updated one's
      id is replaced by it; the others keep their place. */
  function UpdateDeliverable(data: ProcessImprovement, updated: Deliverable): (r: FieldValue)
    ensures r.SetDeliverables? && |r.deliverables| == |data.deliverables|
    ensures forall i :: 0 <= i < |data.deliverables| && data.deliverables[i].id != updated.id ==>
              r.deliverables[i] == data.deliverables[i]
    ensures forall i :: 0 <= i < |data.deliverables| && data.deliverables[i].id == updated.id ==>
              r.deliverables[i] == updated
  {
    SetDeliverables(MapWhere(data.deliverables, (d: Deliverable) => d.id == updated.id,
                             (d: Deliverable) => updated))
  }

  /** `deleteDeliverable(id)`: once confirmed, every deliverable with that id
      goes; a refused confirmation emits nothing. */
  function DeleteDeliverable(data: ProcessImprovement, id: string, confirmed: bool): (r: Option<FieldValue>)
    ensures r.Some? <==> confirmed
    ensures r.Some? ==> r.value.SetDeliverables?
    ensures r.Some? ==> forall d :: d in r.value.deliverables <==> d in data.deliverables && d.id != id
  {
    if confirmed then Some(SetDeliverables(Filter(data.deliverables, (d: Deliverable) => d.id != id)))
    else None
  }

  /** A deliverable just added is removed again by deleting its id, when the
      id was fresh. */
  lemma {:induction false} DeleteAddedDeliverable(data: ProcessImprovement, freshId: string)
    requires forall d :: d in data.deliverables ==> d.id != freshId
    ensures var added := WithField(data, AddDeliverable(data, freshId));
            DeleteDeliverable(added, freshId, true) == Some(SetDeliverables(data.deliverables))
  {
    var p := (d: Deliverable) => d.id != freshId;
    var blank := Deliverable(freshId, "Nova Entrega", "", []);
    var added := WithField(data, AddDeliverable(data, freshId));
    assert added.deliverables == data.deliverables + [blank];
    FilterAll(data.deliverables, p);
    FilterAppend(data.deliverables, [blank], p);
    assert [blank][1..] == [];
    assert Filter(added.deliverables, p) == data.deliverables;
  }

  /** `removeRequirement(index)`: the requirement at that position goes, the
      others keep their order. */
  function RemoveRequirement(data: ProcessImprovement, index: int): (r: FieldValue)
    ensures r.SetRequirements?
    ensures 0 <= index < |Requirements(data)| ==>
              r.requirements == Requirements(data)[..index] + Requirements(data)[index + 1..]
    ensures !(0 <= index < |Requirements(data)|) ==> r.requirements == Requirements(data)
  {
    SetRequirements(RemoveAt(Requirements(data), index))
  }

  /** The view's own state: the text typed for the next requirement. */
  class View {
    var newRequirement: string

    constructor()
      ensures newRequirement == ""
    {
      newRequirement := "";
    }

    /** Typing in the requirement box. */
    method SetNewRequirement(text: string)
      modifies this
      ensures newRequirement == text
    {
      newRequirement := text;
    }

    /** `addRequirement`: a non-blank text is appended trimmed and the box is
        cleared; a blank one emits nothing and leaves the box as it is. */
    method AddRequirement(data: ProcessImprovement) returns (emitted: Option<FieldValue>)
      modifies this
      ensures var added := AppendTrimmed(Requirements(data), old(newRequirement));
              emitted == (if added.Some? then Some(SetRequirements(added.value)) else None)
      ensures newRequirement == (if emitted.Some? then "" else old(newRequirement))
    {
      var added := AppendTrimmed(Requirements(data), newRequirement);
      if added.Some? {
        emitted := Some(SetRequirements(added.value));
        newRequirement := "";
      } else {
        emitted := None;
      }
    }
  }
}
