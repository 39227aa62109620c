/**
 * The editor's top-level state: the open document, the selected element
 * and its bottom panel, and the last notification. Each handler of the
 * application is a method that changes these fields; the new lists it
 * stores are the functions below, which the lemmas at the end are about.
 */
module App {
  import opened Wrappers
  import opened ProcessTypes
  import opened ListOps
  import ProcessJson
  import DeipLayout

  // ---------------------------------------------------------------------
  // The lists the handlers compute

  const NewStepName: string := "Nova Etapa"

  /** The step `handleAddStep` creates: named "Nova Etapa", every text and
      list empty, marked as improved. */
  function NewStep(freshId: string): (r: ProcessStep)
    ensures r.id == freshId && r.name == NewStepName && !r.noImprovement && r.attention.None?
    ensures r.role == "" && r.currentScenario == "" && r.futureScenario == "" && r.idealScenario == ""
    ensures r.inputs == [] && r.outputs == [] && r.userCards == [] && r.mappings == []
  {
    ProcessStep(freshId, NewStepName, "", "", "", "", [], [], false, None, [], [])
  }

  /** `data.steps.filter(s => s.id !== id)` */
  function StepsWithout(steps: seq<ProcessStep>, id: string): (r: seq<ProcessStep>)
    ensures forall s :: s in r <==> s in steps && s.id != id
    ensures |r| <= |steps|
  {
    Filter(steps, (s: ProcessStep) => s.id != id)
  }

  /** `data.steps.map(s => s.id === updatedStep.id ? updatedStep : s)` */
  function StepsReplaced(steps: seq<ProcessStep>, updated: ProcessStep): (r: seq<ProcessStep>)
    ensures |r| == |steps|
    ensures forall k :: 0 <= k < |steps| ==> r[k] == (if steps[k].id == updated.id then updated else steps[k])
  {
    MapWhere(steps, (s: ProcessStep) => s.id == updated.id, (s: ProcessStep) => updated)
  }

  /** `(data.deipItems || []).map(i => i.id === updatedItem.id ? updatedItem : i)` */
  function ItemsReplaced(items: seq<DeipItem>, updated: DeipItem): (r: seq<DeipItem>)
    ensures |r| == |items|
    ensures forall k :: 0 <= k < |items| ==> r[k] == (if items[k].id == updated.id then updated else items[k])
  {
    MapWhere(items, (i: DeipItem) => i.id == updated.id, (i: DeipItem) => updated)
  }

  /** `(data.deipItems || []).filter(i => i.id !== id)` */
  function ItemsWithout(items: seq<DeipItem>, id: string): (r: seq<DeipItem>)
    ensures forall x :: x in r <==> x in items && x.id != id
    ensures |r| <= |items|
  {
    Filter(items, (i: DeipItem) => i.id != id)
  }

  // ---------------------------------------------------------------------
  // What the handlers take and show

  datatype NoticeKind = Success | Failure

  /** The toast: `{ message, type }`. */
  datatype Notice = Notice(message: string, kind: NoticeKind)

  const Loaded: Notice := Notice("Projeto carregado com sucesso!", Success)
  const Invalid: Notice := Notice("Arquivo JSON inválido ou corrompido.", Failure)
  const Unreadable: Notice := Notice("Erro na leitura do arquivo.", Failure)

  /** What choosing a file led to: no file chosen, a text `JSON.parse`
      refused, or the value it parsed. */
  datatype ImportResult = NoFile | ParseFailed | Parsed(json: ProcessJson.JsValue)

  /** The bottom panel: nothing at all while no document is loaded, the
      editor of the selected element, or "Item não encontrado". */
  datatype PanelContent =
    | NoPage
    | NodePanel(node: ProcessNode, isStart: bool)
    | StepPanel(step: ProcessStep)
    | DeipPanel(item: DeipItem)
    | NotFound

  /** Which panel the state shows. A document without `steps` has no step to
      show. */
  function Panel(data: Option<ProcessImprovement>, selectedId: Option<string>, selectedType: Option<SelectedType>): (r: PanelContent)
    ensures data.None? <==> r.NoPage?
    ensures r.NodePanel? ==> selectedType == Some(if r.isStart then StartSelected else EndSelected)
    ensures r.StepPanel? ==> data.Some? && data.value.steps.Some? && selectedId.Some? && r.step.id == selectedId.value && r.step in data.value.steps.value
    ensures r.DeipPanel? ==> data.Some? && selectedId.Some? && r.item.id == selectedId.value && r.item in data.value.deipItems
    ensures (data.Some? && selectedId.Some? && selectedType == Some(StepSelected) && data.value.steps.Some?
             && exists s :: s in data.value.steps.value && s.id == selectedId.value) ==> r.StepPanel?
    ensures (data.Some? && selectedId.Some? && selectedType == Some(DeipSelected)
             && exists i :: i in data.value.deipItems && i.id == selectedId.value) ==> r.DeipPanel?
    ensures r.StepPanel? ==> exists k :: 0 <= k < |data.value.steps.value| && data.value.steps.value[k] == r.step
                                         && forall j :: 0 <= j < k ==> data.value.steps.value[j].id != r.step.id
    ensures r.DeipPanel? ==> exists k :: 0 <= k < |data.value.deipItems| && data.value.deipItems[k] == r.item
                                         && forall j :: 0 <= j < k ==> data.value.deipItems[j].id != r.item.id
  {
    if data.None? then NoPage
    else
      var d := data.value;
      match selectedType
      case Some(StartSelected) => NodePanel(d.startNode, true)
      case Some(EndSelected) => NodePanel(d.endNode, false)
      case Some(StepSelected) =>
        if d.steps.None? || selectedId.None? then NotFound
        else
          var id := selectedId.value;
          var p := (s: ProcessStep) => s.id == id;
          var k := FindIndex(d.steps.value, p);
          (match Find(d.steps.value, p)
           case Some(s) => assert d.steps.value[k] == s; StepPanel(s)
           case None => NotFound)
      case Some(DeipSelected) =>
        if selectedId.None? then NotFound
        else
          var id := selectedId.value;
          var p := (i: DeipItem) => i.id == id;
          var k := FindIndex(d.deipItems, p);
          (match Find(d.deipItems, p)
           case Some(i) => assert d.deipItems[k] == i; DeipPanel(i)
           case None => NotFound)
      case None => NotFound
  }

  // ---------------------------------------------------------------------
  // The state and its handlers

  class AppState {
    var data: Option<ProcessImprovement>
    var selectedId: Option<string>
    var selectedType: Option<SelectedType>
    var isPanelOpen: bool
    var notification: Option<Notice>

    /** The initial state: no document yet, nothing selected, panel closed. */
    constructor()
      ensures data.None? && selectedId.None? && selectedType.None? && !isPanelOpen && notification.None?
    {
      data := None;
      selectedId := None;
      selectedType := None;
      isPanelOpen := false;
      notification := None;
    }

    /** The mount effect: the document read from local storage is opened. */
    method Load(loaded: ProcessImprovement)
      modifies this
      ensures data == Some(loaded)
      ensures selectedId == old(selectedId) && selectedType == old(selectedType)
      ensures isPanelOpen == old(isPanelOpen) && notification == old(notification)
    {
      data := Some(loaded);
    }

    /** What the bottom panel shows now. */
    function PanelNow(): PanelContent
      reads this
    {
      Panel(data, selectedId, selectedType)
    }

    /** `handleUpdate(field, value)`: one field of the document replaced;
        nothing happens while no document is loaded. */
    method HandleUpdate(v: FieldValue)
      modifies this
      ensures old(data).None? ==> data.None?
      ensures old(data).Some? ==> data.Some? && Holds(data.value, v) && SameExcept(old(data).value, data.value, v.Name())
      ensures selectedId == old(selectedId) && selectedType == old(selectedType)
      ensures isPanelOpen == old(isPanelOpen) && notification == old(notification)
    {
      if data.Some? {
        data := Some(WithField(data.value, v));
      }
    }

    /** `handleSelectElement(id, type)`: select and open the panel. */
    method HandleSelectElement(id: string, t: Option<SelectedType>)
      modifies this
      ensures selectedId == Some(id) && selectedType == t && isPanelOpen
      ensures data == old(data) && notification == old(notification)
    {
      selectedId := Some(id);
      selectedType := t;
      isPanelOpen := true;
    }

    /** `handleClosePanel`: close the panel and clear the selection. */
    method HandleClosePanel()
      modifies this
      ensures !isPanelOpen && selectedId.None? && selectedType.None?
      ensures data == old(data) && notification == old(notification)
    {
      isPanelOpen := false;
      selectedId := None;
      selectedType := None;
    }

    /** `handleImport` once the file is read: a parsed value that passes the
        structural check replaces the document (as `migrated`, the result of
        the compatibility pass) and closes the panel; any other outcome keeps
        the document and reports the error. */
    method HandleImport(result: ImportResult, migrated: ProcessImprovement)
      modifies this
      ensures result.NoFile? ==>
                data == old(data) && selectedId == old(selectedId) && selectedType == old(selectedType)
                && isPanelOpen == old(isPanelOpen) && notification == old(notification)
      ensures result.ParseFailed? ==>
                data == old(data) && selectedId == old(selectedId) && selectedType == old(selectedType)
                && isPanelOpen == old(isPanelOpen) && notification == Some(Unreadable)
      ensures result.Parsed? && ProcessJson.Validate(result.json) ==>
                data == Some(migrated) && !isPanelOpen && selectedId.None? && selectedType.None?
                && notification == Some(Loaded)
      ensures result.Parsed? && !ProcessJson.Validate(result.json) ==>
                data == old(data) && selectedId == old(selectedId) && selectedType == old(selectedType)
                && isPanelOpen == old(isPanelOpen) && notification == Some(Invalid)
    {
      match result
      case NoFile =>
      case ParseFailed =>
        notification := Some(Unreadable);
      case Parsed(json) =>
        if ProcessJson.Validate(json) {
          data := Some(migrated);
          HandleClosePanel();
          notification := Some(Loaded);
        } else {
          notification := Some(Invalid);
        }
    }

    /** `updateSteps(newSteps)` */
    method UpdateSteps(newSteps: seq<ProcessStep>)
      modifies this
      ensures old(data).None? ==> data.None?
      ensures old(data).Some? ==> data == Some(old(data).value.(steps := Some(newSteps)))
      ensures selectedId == old(selectedId) && selectedType == old(selectedType)
      ensures isPanelOpen == old(isPanelOpen) && notification == old(notification)
    {
      if data.Some? {
        data := Some(WithField(data.value, SetSteps(newSteps)));
      }
    }

    /** `handleAddStep`: a new step at the end, selected with the panel open.
        Spreading a missing `steps` list throws before anything is set. */
    method HandleAddStep(freshId: string)
      modifies this
      ensures old(data).Some? && old(data).value.steps.Some? ==>
                && data == Some(old(data).value.(steps := Some(old(data).value.steps.value + [NewStep(freshId)])))
                && selectedId == Some(freshId) && selectedType == Some(StepSelected) && isPanelOpen
      ensures !(old(data).Some? && old(data).value.steps.Some?) ==>
                data == old(data) && selectedId == old(selectedId) && selectedType == old(selectedType)
                && isPanelOpen == old(isPanelOpen)
      ensures notification == old(notification)
    {
      if data.Some? && data.value.steps.Some? {
        var step := NewStep(freshId);
        var newSteps := data.value.steps.value + [step];
        data := Some(WithField(data.value, SetSteps(newSteps)));
        HandleSelectElement(step.id, Some(StepSelected));
      }
    }

    /** `handleDeleteStep(id)` after the confirmation dialog: every step
        with the id goes, and the panel closes if it showed that id. */
    method HandleDeleteStep(id: string, confirmed: bool)
      modifies this
      ensures confirmed && old(data).Some? && old(data).value.steps.Some? ==>
                && data == Some(old(data).value.(steps := Some(StepsWithout(old(data).value.steps.value, id))))
                && (old(selectedId) == Some(id) ==> !isPanelOpen && selectedId.None? && selectedType.None?)
                && (old(selectedId) != Some(id) ==>
                      selectedId == old(selectedId) && selectedType == old(selectedType) && isPanelOpen == old(isPanelOpen))
      ensures !(confirmed && old(data).Some? && old(data).value.steps.Some?) ==>
                data == old(data) && selectedId == old(selectedId) && selectedType == old(selectedType)
                && isPanelOpen == old(isPanelOpen)
      ensures notification == old(notification)
    {
      if data.Some? && confirmed && data.value.steps.Some? {
        var newSteps := StepsWithout(data.value.steps.value, id);
        data := Some(WithField(data.value, SetSteps(newSteps)));
        if selectedId == Some(id) {
          HandleClosePanel();
        }
      }
    }

    /** `handleUpdateSelectedStep(updatedStep)`: every step with its id is
        replaced by it. */
    method HandleUpdateSelectedStep(updated: ProcessStep)
      modifies this
      ensures old(data).Some? && old(data).value.steps.Some? ==>
                data == Some(old(data).value.(steps := Some(StepsReplaced(old(data).value.steps.value, updated))))
      ensures !(old(data).Some? && old(data).value.steps.Some?) ==> data == old(data)
      ensures selectedId == old(selectedId) && selectedType == old(selectedType)
      ensures isPanelOpen == old(isPanelOpen) && notification == old(notification)
    {
      if data.Some? && data.value.steps.Some? {
        var newSteps := StepsReplaced(data.value.steps.value, updated);
        data := Some(WithField(data.value, SetSteps(newSteps)));
      }
    }

    /** `handleUpdateStartNode(node)` */
    method HandleUpdateStartNode(node: ProcessNode)
      modifies this
      ensures old(data).None? ==> data.None?
      ensures old(data).Some? ==> data == Some(old(data).value.(startNode := node))
      ensures selectedId == old(selectedId) && selectedType == old(selectedType)
      ensures isPanelOpen == old(isPanelOpen) && notification == old(notification)
    {
      if data.Some? {
        data := Some(WithField(data.value, SetStartNode(node)));
      }
    }

    /** `handleUpdateEndNode(node)` */
    method HandleUpdateEndNode(node: ProcessNode)
      modifies this
      ensures old(data).None? ==> data.None?
      ensures old(data).Some? ==> data == Some(old(data).value.(endNode := node))
      ensures selectedId == old(selectedId) && selectedType == old(selectedType)
      ensures isPanelOpen == old(isPanelOpen) && notification == old(notification)
    {
      if data.Some? {
        data := Some(WithField(data.value, SetEndNode(node)));
      }
    }

    /** `handleUpdateDeipItems(items)` */
    method HandleUpdateDeipItems(items: seq<DeipItem>)
      modifies this
      ensures old(data).None? ==> data.None?
      ensures old(data).Some? ==> data == Some(old(data).value.(deipItems := items))
      ensures selectedId == old(selectedId) && selectedType == old(selectedType)
      ensures isPanelOpen == old(isPanelOpen) && notification == old(notification)
    {
      if data.Some? {
        data := Some(WithField(data.value, SetDeipItems(items)));
      }
    }

    /** `handleUpdateDeipItem(updatedItem)`: every item with its id is
        replaced by it. */
    method HandleUpdateDeipItem(updated: DeipItem)
      modifies this
      ensures old(data).None? ==> data.None?
      ensures old(data).Some? ==> data == Some(old(data).value.(deipItems := ItemsReplaced(old(data).value.deipItems, updated)))
      ensures selectedId == old(selectedId) && selectedType == old(selectedType)
      ensures isPanelOpen == old(isPanelOpen) && notification == old(notification)
    {
      if data.Some? {
        var newItems := ItemsReplaced(data.value.deipItems, updated);
        data := Some(WithField(data.value, SetDeipItems(newItems)));
      }
    }

    /** The DEIP canvas's `addItem(category)`: the list with the new item
        goes to `handleUpdateDeipItems`, then `onSelect(newItem.id, 'deip')`
        selects it; under an id no item has, the panel shows the new,
        empty item. */
    method AddDeipItem(c: DeipCategory, freshId: string)
      modifies this
      ensures old(data).None? ==> data.None?
      ensures old(data).Some? ==> data == Some(old(data).value.(deipItems := DeipLayout.AddItem(old(data).value.deipItems, c, freshId)))
      ensures selectedId == Some(freshId) && selectedType == Some(DeipSelected) && isPanelOpen
      ensures notification == old(notification)
      ensures old(data).Some? && (forall i :: i in old(data).value.deipItems ==> i.id != freshId) ==>
                PanelNow() == DeipPanel(DeipItem(freshId, c, "", "", false))
    {
      if data.Some? && forall i :: i in data.value.deipItems ==> i.id != freshId {
        PanelShowsAddedItem(data.value, DeipItem(freshId, c, "", "", false));
      }
      var items := if data.Some? then DeipLayout.AddItem(data.value.deipItems, c, freshId) else [];
      HandleUpdateDeipItems(items);
      HandleSelectElement(freshId, Some(DeipSelected));
    }

    /** `handleDeleteDeipItem(id)` after the confirmation dialog: every item
        with the id goes, and the panel closes if it showed that id. */
    method HandleDeleteDeipItem(id: string, confirmed: bool)
      modifies this
      ensures confirmed && old(data).Some? ==>
                && data == Some(old(data).value.(deipItems := ItemsWithout(old(data).value.deipItems, id)))
                && (old(selectedId) == Some(id) ==> !isPanelOpen && selectedId.None? && selectedType.None?)
                && (old(selectedId) != Some(id) ==>
                      selectedId == old(selectedId) && selectedType == old(selectedType) && isPanelOpen == old(isPanelOpen))
      ensures !(confirmed && old(data).Some?) ==>
                data == old(data) && selectedId == old(selectedId) && selectedType == old(selectedType)
                && isPanelOpen == old(isPanelOpen)
      ensures notification == old(notification)
    {
      if data.Some? && confirmed {
        var newItems := ItemsWithout(data.value.deipItems, id);
        data := Some(WithField(data.value, SetDeipItems(newItems)));
        if selectedId == Some(id) {
          HandleClosePanel();
        }
      }
    }
  }

  // ---------------------------------------------------------------------
  // What the handlers amount to

  /** Deleting a step that was just added, under an id no other step has,
      gives back the steps as they were. */
  lemma {:induction false} AddThenDeleteStep(steps: seq<ProcessStep>, freshId: string)
    requires forall s :: s in steps ==> s.id != freshId
    ensures StepsWithout(steps + [NewStep(freshId)], freshId) == steps
  {
    var p := (s: ProcessStep) => s.id != freshId;
    FilterAppend(steps, [NewStep(freshId)], p);
    FilterAll(steps, p);
    FilterCons(NewStep(freshId), [], p);
    assert Filter([], p) == [];
  }

  /** Deletion keeps the other steps in their order: deleting a step whose
      id appears nowhere else is removing it at its position. */
  lemma {:induction false} DeleteStepAt(steps: seq<ProcessStep>, k: nat)
    requires k < |steps|
    requires forall j :: 0 <= j < |steps| && j != k ==> steps[j].id != steps[k].id
    ensures StepsWithout(steps, steps[k].id) == RemoveAt(steps, k)
  {
    var id := steps[k].id;
    var p := (s: ProcessStep) => s.id != id;
    var front, back := steps[..k], steps[k + 1..];
    SplitAround(steps, k);
    NoneWithId(front, id);
    NoneWithId(back, id);
    FilterAppend(front, [steps[k]] + back, p);
    FilterCons(steps[k], back, p);
    assert [] + back == back;
  }

  lemma SplitAround(s: seq<ProcessStep>, k: nat)
    requires k < |s|
    ensures s == s[..k] + ([s[k]] + s[k + 1..])
    ensures RemoveAt(s, k) == s[..k] + s[k + 1..]
  {
  }

  /** A list where no step has the id loses nothing. */
  lemma NoneWithId(xs: seq<ProcessStep>, id: string)
    requires forall j :: 0 <= j < |xs| ==> xs[j].id != id
    ensures Filter(xs, (s: ProcessStep) => s.id != id) == xs
  {
    FilterAll(xs, (s: ProcessStep) => s.id != id);
  }

  /** Replacing the selected step changes no step's id, so the selection
      still finds it. */
  lemma ReplaceKeepsIds(steps: seq<ProcessStep>, updated: ProcessStep, k: nat)
    requires k < |steps|
    ensures StepsReplaced(steps, updated)[k].id == steps[k].id
    ensures steps[k].id == updated.id ==> StepsReplaced(steps, updated)[k] == updated
  {
  }

  /** After a step is updated, the panel of that step shows the update. */
  lemma {:induction false} PanelShowsUpdatedStep(d: ProcessImprovement, updated: ProcessStep)
    requires d.steps.Some? && exists s :: s in d.steps.value && s.id == updated.id
    ensures Panel(Some(d.(steps := Some(StepsReplaced(d.steps.value, updated)))), Some(updated.id), Some(StepSelected))
              == StepPanel(updated)
  {
    var steps := StepsReplaced(d.steps.value, updated);
    var p := (s: ProcessStep) => s.id == updated.id;
    var s :| s in d.steps.value && s.id == updated.id;
    var j :| 0 <= j < |d.steps.value| && d.steps.value[j] == s;
    assert p(steps[j]);
    var r := Find(steps, p);
    assert r.Some?;
    var k := FindIndex(steps, p);
    assert steps[k] == updated;
  }

  /** An item appended under an id no other item has is the one the panel
      shows when that id is selected. */
  lemma {:induction false} PanelShowsAddedItem(d: ProcessImprovement, x: DeipItem)
    requires forall i :: i in d.deipItems ==> i.id != x.id
    ensures Panel(Some(d.(deipItems := d.deipItems + [x])), Some(x.id), Some(DeipSelected)) == DeipPanel(x)
  {
    var items := d.deipItems + [x];
    var p := (i: DeipItem) => i.id == x.id;
    assert items[|items| - 1] == x;
    assert forall j :: 0 <= j < |items| - 1 ==> items[j] in d.deipItems;
  }

  /** Which element the panel shows: the node of a start or end selection
      (the nodes are always present), or the first element with the
      selected id, and "not found" when there is none. */
  lemma PanelChoice(d: ProcessImprovement, id: string, t: SelectedType)
    ensures t == StartSelected ==> Panel(Some(d), Some(id), Some(t)) == NodePanel(d.startNode, true)
    ensures t == EndSelected ==> Panel(Some(d), Some(id), Some(t)) == NodePanel(d.endNode, false)
    ensures t == StepSelected && d.steps.Some? && (forall s :: s in d.steps.value ==> s.id != id) ==>
              Panel(Some(d), Some(id), Some(t)) == NotFound
    ensures t == DeipSelected && (forall i :: i in d.deipItems ==> i.id != id) ==>
              Panel(Some(d), Some(id), Some(t)) == NotFound
  {
  }
}
