/**
 * The detail panel of one step: the input/output list editors, the tabs,
 * the user cards and the interview mappings. Handlers that change the step
 * yield the step they hand to `onUpdate`.
 */
module StepDetails {
  import opened Wrappers
  import opened ProcessTypes
  import opened ListOps
  import opened ListInput
  import Text

  /** One list editor (the step's inputs or outputs) and the text typed for
      its next entry. */
  class ListEditor {
    var newItem: string

    constructor()
      ensures newItem == ""
    {
      newItem := "";
    }

    method SetNewItem(text: string)
      modifies this
      ensures newItem == text
    {
      newItem := text;
    }

    /** `handleAdd` (the button, or Enter in the box): a non-blank entry is
        appended trimmed and the box cleared; a blank one changes nothing. */
    method HandleAdd(items: seq<string>) returns (emitted: Option<seq<string>>)
      modifies this
      ensures emitted == AppendTrimmed(items, old(newItem))
      ensures newItem == (if emitted.Some? then "" else old(newItem))
    {
      emitted := AppendTrimmed(items, newItem);
      if emitted.Some? {
        newItem := "";
      }
    }

    /** `handleKeyDown`: Enter adds, any other key does nothing here. */
    method HandleKeyDown(items: seq<string>, key: string) returns (emitted: Option<seq<string>>)
      modifies this
      ensures key != "Enter" ==> emitted.None? && newItem == old(newItem)
      ensures key == "Enter" ==> emitted == AppendTrimmed(items, old(newItem))
                                 && newItem == (if emitted.Some? then "" else old(newItem))
    {
      if key == "Enter" {
        emitted := HandleAdd(items);
      } else {
        emitted := None;
      }
    }
  }

  /** `handleRemove(index)`: the entry at that position goes, the others keep
      their order. */
  function HandleRemove(items: seq<string>, index: int): (r: seq<string>)
    ensures 0 <= index < |items| ==> |r| == |items| - 1 && r == items[..index] + items[index + 1..]
    ensures !(0 <= index < |items|) ==> r == items
  {
    RemoveAt(items, index)
  }

  /** `'overview' | 'scenarios' | 'stories' | 'mappings'` */
  datatype Tab = Overview | Scenarios | Stories | Mappings

  /** `addUserCard`: one card with the fresh id, no user name and no stories
      at the end; nothing else in the step changes. */
  function AddUserCard(step: ProcessStep, freshId: string): (r: ProcessStep)
    ensures r == step.(userCards := r.userCards)
    ensures |r.userCards| == |step.userCards| + 1 && r.userCards[..|step.userCards|] == step.userCards
    ensures r.userCards[|step.userCards|] == UserCard(freshId, "", [])
  {
    step.(userCards := step.userCards + [UserCard(freshId, "", [])])
  }

  /** `updateUserCard(index, card)`: copy the cards, overwrite one slot. */
  method UpdateUserCard(step: ProcessStep, index: nat, card: UserCard) returns (r: ProcessStep)
    requires index < |step.userCards|
    ensures r == step.(userCards := r.userCards)
    ensures |r.userCards| == |step.userCards| && r.userCards[index] == card
    ensures forall k :: 0 <= k < |step.userCards| && k != index ==> r.userCards[k] == step.userCards[k]
  {
    var cards := CopyWithAt(step.userCards, index, card);
    r := step.(userCards := cards);
  }

  /** `deleteUserCard(index)`: once confirmed, the card at that position goes;
      a refused confirmation emits nothing. */
  function DeleteUserCard(step: ProcessStep, index: nat, confirmed: bool): (r: Option<ProcessStep>)
    requires index < |step.userCards|
    ensures r.Some? <==> confirmed
    ensures r.Some? ==> r.value == step.(userCards := step.userCards[..index] + step.userCards[index + 1..])
  {
    if confirmed then Some(step.(userCards := RemoveAt(step.userCards, index))) else None
  }

  /** `new Date().toISOString().split('T')[0]`: the timestamp up to its first
      'T'. */
  function DatePart(iso: string): (r: string)
    ensures |r| <= |iso| && r == iso[..|r|] && 'T' !in r
    ensures |r| < |iso| ==> iso[|r|] == 'T'
  {
    Text.BeforeFirst(iso, 'T')
  }

  /** For a timestamp `YYYY-MM-DDTHH:mm:ss.sssZ` the date part is its first
      ten characters, `YYYY-MM-DD`. */
  lemma DatePartOfTimestamp(iso: string)
    requires |iso| > 10 && iso[10] == 'T'
    requires forall k :: 0 <= k < 10 ==> '0' <= iso[k] <= '9' || iso[k] == '-'
    ensures DatePart(iso) == iso[..10]
  {
  }

  /** `addMapping`: one note with the fresh id, today's date and no
      interviewee or notes at the end. */
  function AddMapping(step: ProcessStep, freshId: string, isoNow: string): (r: ProcessStep)
    ensures r == step.(mappings := r.mappings)
    ensures |r.mappings| == |step.mappings| + 1 && r.mappings[..|step.mappings|] == step.mappings
    ensures r.mappings[|step.mappings|] == MappingNote(freshId, "", DatePart(isoNow), "")
  {
    step.(mappings := step.mappings + [MappingNote(freshId, "", DatePart(isoNow), "")])
  }

  /** `updateMapping(index, mapping)`: copy the notes, overwrite one slot. */
  method UpdateMapping(step: ProcessStep, index: nat, mapping: MappingNote) returns (r: ProcessStep)
    requires index < |step.mappings|
    ensures r == step.(mappings := r.mappings)
    ensures |r.mappings| == |step.mappings| && r.mappings[index] == mapping
    ensures forall k :: 0 <= k < |step.mappings| && k != index ==> r.mappings[k] == step.mappings[k]
  {
    var notes := CopyWithAt(step.mappings, index, mapping);
    r := step.(mappings := notes);
  }

  /** `deleteMapping(index)`: once confirmed, the note at that position goes. */
  function DeleteMapping(step: ProcessStep, index: nat, confirmed: bool): (r: Option<ProcessStep>)
    requires index < |step.mappings|
    ensures r.Some? <==> confirmed
    ensures r.Some? ==> r.value == step.(mappings := step.mappings[..index] + step.mappings[index + 1..])
  {
    if confirmed then Some(step.(mappings := RemoveAt(step.mappings, index))) else None
  }

  /** Deleting the note just added restores the step. */
  lemma DeleteAddedMapping(step: ProcessStep, freshId: string, isoNow: string)
    ensures DeleteMapping(AddMapping(step, freshId, isoNow), |step.mappings|, true) == Some(step)
  {
    var r := AddMapping(step, freshId, isoNow);
    assert r.mappings[..|step.mappings|] == step.mappings;
    assert r.mappings[|step.mappings| + 1..] == [];
    assert r.mappings[..|step.mappings|] + r.mappings[|step.mappings| + 1..] == step.mappings;
    assert r.(mappings := step.mappings) == step;
  }

  /** The panel's own state: the open tab. */
  class StepPanel {
    var activeTab: Tab

    constructor()
      ensures activeTab == Overview
    {
      activeTab := Overview;
    }

    method SelectTab(t: Tab)
      modifies this
      ensures activeTab == t
    {
      activeTab := t;
    }

    /** `addUserCard` also switches to the stories tab. */
    method AddCard(step: ProcessStep, freshId: string) returns (emitted: ProcessStep)
      modifies this
      ensures emitted == AddUserCard(step, freshId)
      ensures activeTab == Stories
    {
      emitted := AddUserCard(step, freshId);
      activeTab := Stories;
    }
  }
}
