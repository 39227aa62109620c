/**
 * The click-to-edit text field: a display view that turns into an input (or
 * a text area) on click, keeps a local copy of the text while editing, and
 * hands the local copy to `onChange` when the edit is saved.
 *
 * `Next` is the specification: one event in, the new state and what (if
 * anything) is handed to `onChange` out. The class `EditableText` runs the
 * same handlers on its own fields.
 */
module EditableText {
  import opened Wrappers

  /** The props that matter (`value`, `multiline`) and the two pieces of
      state (`isEditing`, `localValue`). */
  datatype Editor = Editor(value: string, multiline: bool, isEditing: bool, localValue: string)

  /** What can happen to the field: a click on the display view, typing,
      leaving the input, a key press (with or without Shift), or the parent
      passing a new `value`. */
  datatype Event =
    | Click
    | Type(text: string)
    | Blur
    | KeyDown(key: string, shift: bool)
    | ValueProp(newValue: string)

  /** `handleSave`: hand the local text to `onChange`, leave editing. */
  function Save(e: Editor): (r: (Editor, Option<string>))
    ensures !r.0.isEditing && r.1 == Some(e.localValue)
    ensures r.0.(isEditing := e.isEditing) == e
  {
    (e.(isEditing := false), Some(e.localValue))
  }

  /** One event. Click is handled only by the display view, and typing,
      blur and keys only by the input, so each is ignored in the other mode.
      The value effect runs only when the prop really changes. */
  function Next(e: Editor, ev: Event): (r: (Editor, Option<string>))
    ensures r.0.value == (if ev.ValueProp? then ev.newValue else e.value)
    ensures r.0.multiline == e.multiline
    ensures r.1.Some? ==> e.isEditing && !r.0.isEditing && r.1.value == e.localValue
  {
    match ev
    case Click =>
      if e.isEditing then (e, None) else (e.(isEditing := true), None)
    case Type(t) =>
      if e.isEditing then (e.(localValue := t), None) else (e, None)
    case Blur =>
      if e.isEditing then Save(e) else (e, None)
    case KeyDown(key, shift) =>
      if !e.isEditing then (e, None)
      else if key == "Enter" && !shift then
        if e.multiline then (e, None) else Save(e)
      else if key == "Escape" then
        (e.(localValue := e.value, isEditing := false), None)
      else (e, None)
    case ValueProp(v) =>
      if v == e.value then (e, None) else (e.(value := v, localValue := v), None)
  }

  /** A run of events: the final state and every text handed to `onChange`,
      in order. */
  function Run(e: Editor, evs: seq<Event>): (r: (Editor, seq<string>))
    ensures |r.1| <= |evs|
    decreases |evs|
  {
    if evs == [] then (e, [])
    else
      var (e1, out) := Next(e, evs[0]);
      var (e2, outs) := Run(e1, evs[1..]);
      (e2, (if out.Some? then [out.value] else []) + outs)
  }

  /** Click, type, click away: the typed text is handed to `onChange` once
      and the field is back in the display view. */
  lemma {:induction false} EditThenBlur(e: Editor, t: string)
    requires !e.isEditing
    ensures Run(e, [Click, Type(t), Blur]) == (e.(localValue := t), [t])
  {
    var e1 := Next(e, Click).0;
    var e2 := Next(e1, Type(t)).0;
    var e3 := Next(e2, Blur).0;
    assert [Click, Type(t), Blur][1..] == [Type(t), Blur];
    assert [Type(t), Blur][1..] == [Blur];
    assert [Blur][1..] == [];
    assert Run(e3, []) == (e3, []);
    assert Next(e2, Blur) == (e3, Some(t));
    assert [t] + [] == [t] && [] + [t] == [t];
    assert Run(e2, [Blur]) == (e3, [t]);
    assert Run(e1, [Type(t), Blur]) == (e3, [t]);
  }

  /** Escape throws the edit away: nothing reaches `onChange`, and the local
      text is the prop again. */
  lemma {:induction false} EditThenEscape(e: Editor, t: string, shift: bool)
    requires !e.isEditing
    ensures Run(e, [Click, Type(t), KeyDown("Escape", shift)]) == (e.(localValue := e.value), [])
  {
    var esc := KeyDown("Escape", shift);
    var e1 := Next(e, Click).0;
    var e2 := Next(e1, Type(t)).0;
    var e3 := Next(e2, esc).0;
    assert [Click, Type(t), esc][1..] == [Type(t), esc];
    assert [Type(t), esc][1..] == [esc];
    assert [esc][1..] == [];
    assert Run(e3, []) == (e3, []);
    assert Run(e2, [esc]) == (e3, []);
  }

  /** In a single-line field, Enter without Shift is the same as leaving the
      field; in a multi-line one Enter never saves (it types a new line). */
  lemma EnterSaves(e: Editor, shift: bool)
    ensures !e.multiline && !shift ==> Next(e, KeyDown("Enter", shift)) == Next(e, Blur)
    ensures e.multiline ==> Next(e, KeyDown("Enter", shift)) == (e, None)
  {
  }

  /** Only an edit in progress can reach `onChange`, and every text handed
      on was the local text of some state: nothing is emitted by a run that
      never enters editing mode. */
  lemma {:induction false} NoEditNoChange(e: Editor, evs: seq<Event>)
    requires !e.isEditing
    requires forall k :: 0 <= k < |evs| ==> !evs[k].Click?
    ensures Run(e, evs).1 == [] && !Run(e, evs).0.isEditing
    decreases |evs|
  {
    if evs != [] {
      NoEditNoChange(Next(e, evs[0]).0, evs[1..]);
    }
  }

  /** A new `value` from the parent replaces the local text. */
  lemma ValuePropSyncs(e: Editor, v: string)
    requires v != e.value || e.localValue == e.value
    ensures Next(e, ValueProp(v)).0.localValue == v
  {
  }

  /** The display view: the value, or the placeholder when the value is
      empty. */
  function Display(value: string, placeholder: Option<string>): (r: string)
    ensures value != [] ==> r == value
    ensures value == [] ==> r == placeholder.GetOr("")
  {
    if value != [] then value else placeholder.GetOr("")
  }

  /** The component, with its props and state as fields. */
  class EditableText {
    var value: string
    var multiline: bool
    var placeholder: Option<string>
    var isEditing: bool
    var localValue: string

    function State(): Editor
      reads this
    {
      Editor(value, multiline, isEditing, localValue)
    }

    /** Mounting: not editing, the local text starts as the prop. */
    constructor(value: string, multiline: bool, placeholder: Option<string>)
      ensures State() == Editor(value, multiline, false, value)
      ensures this.placeholder == placeholder
    {
      this.value := value;
      this.multiline := multiline;
      this.placeholder := placeholder;
      isEditing := false;
      localValue := value;
    }

    /** `onClick` of the display view. */
    method OnClick()
      modifies this
      ensures State() == Next(old(State()), Click).0
      ensures placeholder == old(placeholder)
    {
      if !isEditing {
        isEditing := true;
      }
    }

    /** `onChange` of the input. */
    method OnType(text: string)
      modifies this
      ensures State() == Next(old(State()), Type(text)).0
      ensures placeholder == old(placeholder)
    {
      if isEditing {
        localValue := text;
      }
    }

    /** `onBlur`: `handleSave`. */
    method OnBlur() returns (emitted: Option<string>)
      modifies this
      ensures (State(), emitted) == Next(old(State()), Blur)
      ensures placeholder == old(placeholder)
    {
      if isEditing {
        emitted := Some(localValue);
        isEditing := false;
      } else {
        emitted := None;
      }
    }

    /** `handleKeyDown` */
    method OnKeyDown(key: string, shift: bool) returns (emitted: Option<string>)
      modifies this
      ensures (State(), emitted) == Next(old(State()), KeyDown(key, shift))
      ensures placeholder == old(placeholder)
    {
      emitted := None;
      if isEditing {
        if key == "Enter" && !shift {
          if !multiline {
            emitted := Some(localValue);
            isEditing := false;
          }
        } else if key == "Escape" {
          localValue := value;
          isEditing := false;
        }
      }
    }

    /** A re-render with a new `value` prop, and the effect that copies it
        into the local text when it changed. */
    method OnValueProp(v: string)
      modifies this
      ensures State() == Next(old(State()), ValueProp(v)).0
      ensures placeholder == old(placeholder)
    {
      if v != value {
        value := v;
        localValue := v;
      }
    }

    /** What the display view shows. */
    function Shown(): (r: string)
      reads this
      ensures value != [] ==> r == value
      ensures value == [] ==> r == placeholder.GetOr("")
    {
      Display(value, placeholder)
    }
  }
}
