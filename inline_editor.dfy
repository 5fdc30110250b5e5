/** The click-to-edit text field and the list editor built from it
    (frontend/src/components/persona/InlineEditor.tsx). Each handler is modelled by what it does
    to the component's own state and by the value it passes to its `onSave` or `onUpdate`
    callback, `None` when it does not call it. Focus, selection and rendering are left out. */
module InlineEditor {
  import opened Wrappers
  import opened Strings
  import opened JsValues

  /** What the field renders (frontend/src/components/persona/InlineEditor.tsx:28-31,91,133). */
  datatype View = InvalidValue | EditBox | DisplayText

  /** A value that is a non-null object shows "Invalid value" and never an editor. */
  function ViewOf(value: Value, isEditing: bool): (r: View)
    ensures r.InvalidValue? <==> value.Obj? || value.Arr?
    ensures r.EditBox? <==> isEditing && !value.Obj? && !value.Arr?
  {
    if IsObjectType(value) && !value.Null? then InvalidValue
    else if isEditing then EditBox
    else DisplayText
  }

  /** The draft is a JavaScript value: `value || ''` keeps a truthy value of any type, and only
      typing makes it text. */
  datatype EditorState = EditorState(isEditing: bool, editValue: Value)

  /** What a save or a key press leads to: the new state, the text passed to `onSave` (`None`
      when it is not called), and whether the handler threw. `editValue.trim()` throws a
      `TypeError` on a draft that is not text, before `onSave` and `setIsEditing(false)`. */
  datatype Handled = Handled(state: EditorState, saved: Option<string>, threw: bool)

  /** `value || ''`, the draft an editor opens with
      (frontend/src/components/persona/InlineEditor.tsx:34,55,67). */
  function OpeningDraft(value: Value): (r: Value)
    ensures Truthy(value) ==> r == value
    ensures !Truthy(value) ==> r == Str("")
  {
    if Truthy(value) then value else Str("")
  }

  /** `handleStartEdit` (frontend/src/components/persona/InlineEditor.tsx:52-56). */
  function StartEdit(s: EditorState, value: Value, disabled: bool): (r: EditorState)
    ensures disabled ==> r == s
    ensures !disabled ==> r.isEditing && r.editValue == OpeningDraft(value)
  {
    if disabled then s else EditorState(true, OpeningDraft(value))
  }

  /** `handleSave` (frontend/src/components/persona/InlineEditor.tsx:58-64): the trimmed text is
      saved only when it is not strictly equal to the current value, so a text draft always
      differs from a value that is not text; editing ends. A draft that is not text throws and
      changes nothing. */
  function Save(s: EditorState, value: Value): (r: Handled)
    ensures r.threw <==> !s.editValue.Str?
    ensures r.threw ==> r.state == s && r.saved.None?
    ensures !r.threw ==> !r.state.isEditing && r.state.editValue == s.editValue
    ensures r.saved.Some? <==> s.editValue.Str? && Str(Trim(JsSpace, s.editValue.s)) != value
    ensures r.saved.Some? ==> r.saved.value == Trim(JsSpace, s.editValue.s)
  {
    match s.editValue
    case Str(draft) =>
      var trimmed := Trim(JsSpace, draft);
      Handled(s.(isEditing := false), if Str(trimmed) != value then Some(trimmed) else None, false)
    case _ => Handled(s, None, true)
  }

  /** `handleCancel` (frontend/src/components/persona/InlineEditor.tsx:66-70): the draft goes back
      to the value and nothing is saved. */
  function Cancel(s: EditorState, value: Value): (r: EditorState)
    ensures !r.isEditing && r.editValue == OpeningDraft(value)
  {
    EditorState(false, OpeningDraft(value))
  }

  /** `handleKeyDown` (frontend/src/components/persona/InlineEditor.tsx:72-80): Enter saves a
      single-line field, Escape cancels. */
  function KeyDown(s: EditorState, value: Value, key: string, shiftKey: bool, multiline: bool): (r: Handled)
    ensures key == "Enter" && !shiftKey && !multiline ==> r == Save(s, value)
    ensures key == "Escape" ==> r == Handled(Cancel(s, value), None, false)
    ensures key != "Escape" && !(key == "Enter" && !shiftKey && !multiline) ==> r == Handled(s, None, false)
  {
    if key == "Enter" && !shiftKey && !multiline then Save(s, value)
    else if key == "Escape" then Handled(Cancel(s, value), None, false)
    else Handled(s, None, false)
  }

  /** Opening and saving an already trimmed text value without typing saves nothing. */
  lemma UntouchedSaveIsSilent(s: EditorState, value: string)
    requires Trim(JsSpace, value) == value
    ensures Save(StartEdit(s, Str(value), false), Str(value)) == Handled(EditEnded(Str(value)), None, false)
  {
    if value == "" {
      assert !Truthy(Str(value));
    }
  }

  /** The state a save of the untouched draft leaves. */
  function EditEnded(value: Value): EditorState
  {
    EditorState(false, OpeningDraft(value))
  }

  /** Opening and saving a text value with surrounding whitespace, without typing, rewrites it
      trimmed. */
  lemma UntouchedSaveTrims(s: EditorState, value: string)
    requires Trim(JsSpace, value) != value
    ensures Save(StartEdit(s, Str(value), false), Str(value)) == Handled(EditEnded(Str(value)), Some(Trim(JsSpace, value)), false)
  {
    assert OccursAt(value, Trim(JsSpace, value), |value| - |TrimStart(JsSpace, value)|);
    assert Truthy(Str(value));
  }

  /** Opening and saving a falsy value that is not text (null, undefined, `0`, `false`) without
      typing saves the empty text: the draft opens as `''`, which is not strictly equal to it. */
  lemma UntouchedSaveOfFalsyValueSavesEmpty(s: EditorState, value: Value)
    requires !Truthy(value) && !value.Str?
    ensures Save(StartEdit(s, value, false), value) == Handled(EditEnded(value), Some(""), false)
  {
  }

  /** Opening a truthy value that is not text (a non-zero number, `true`) and saving it without
      typing throws: the draft is the value itself and has no `trim`. Editing stays open. */
  lemma UntouchedSaveOfTruthyNonTextThrows(s: EditorState, value: Value)
    requires Truthy(value) && !value.Str?
    ensures Save(StartEdit(s, value, false), value) == Handled(EditorState(true, value), None, true)
  {
  }

  /** Once a save has gone through, opening and saving the new value again saves nothing. */
  lemma SaveSettles(s: EditorState, value: Value)
    requires Save(s, value).saved.Some?
    ensures var saved := Save(s, value).saved.value;
            Save(StartEdit(Save(s, value).state, Str(saved), false), Str(saved)).saved == None
  {
    TrimIdempotent(JsSpace, s.editValue.s);
    var saved := Save(s, value).saved.value;
    assert StartEdit(Save(s, value).state, Str(saved), false).editValue == Str(saved) by {
      assert OccursAt(saved, Trim(JsSpace, saved), |saved| - |TrimStart(JsSpace, saved)|);
    }
  }

  /** One field. `value` and `disabled` are its props. */
  class Editor {
    var isEditing: bool
    var editValue: Value
    const value: Value
    const disabled: bool
    const multiline: bool

    function State(): EditorState
      reads this
    {
      EditorState(isEditing, editValue)
    }

    constructor (value: Value, disabled: bool, multiline: bool)
      ensures State() == EditorState(false, OpeningDraft(value))
      ensures this.value == value && this.disabled == disabled && this.multiline == multiline
    {
      this.value, this.disabled, this.multiline := value, disabled, multiline;
      isEditing, editValue := false, if Truthy(value) then value else Str("");
    }

    method HandleStartEdit()
      modifies this
      ensures State() == StartEdit(old(State()), value, disabled)
    {
      if disabled {
        return;
      }
      isEditing := true;
      editValue := if Truthy(value) then value else Str("");
    }

    /** The field's `onChange`: the draft becomes the typed text. */
    method HandleChange(text: string)
      modifies this
      ensures State() == old(State()).(editValue := Str(text))
    {
      editValue := Str(text);
    }

    method HandleSave() returns (saved: Option<string>, threw: bool)
      modifies this
      ensures Handled(State(), saved, threw) == Save(old(State()), value)
    {
      if !editValue.Str? {
        return None, true;
      }
      var trimmed := Trim(JsSpace, editValue.s);
      saved := if Str(trimmed) != value then Some(trimmed) else None;
      threw := false;
      isEditing := false;
    }

    method HandleCancel()
      modifies this
      ensures State() == Cancel(old(State()), value)
    {
      editValue := if Truthy(value) then value else Str("");
      isEditing := false;
    }

    method HandleKeyDown(key: string, shiftKey: bool) returns (saved: Option<string>, threw: bool)
      modifies this
      ensures Handled(State(), saved, threw) == KeyDown(old(State()), value, key, shiftKey, multiline)
    {
      saved, threw := None, false;
      if key == "Enter" && !shiftKey && !multiline {
        saved, threw := HandleSave();
      } else if key == "Escape" {
        HandleCancel();
      }
    }
  }

  /** The default `maxItems` of the list editor (frontend/src/components/persona/InlineEditor.tsx:173). */
  const DefaultMaxItems: int := 10

  /** `handleAddItem`'s update (frontend/src/components/persona/InlineEditor.tsx:180-187): the
      trimmed draft is appended when it is not blank and the list is below its limit. */
  function AddItem(values: seq<string>, newItem: string, maxItems: int): (r: Option<seq<string>>)
    ensures r.Some? <==> !AllSpace(JsSpace, newItem) && |values| < maxItems
    ensures r.Some? ==> r.value == values + [Trim(JsSpace, newItem)]
  {
    var trimmed := Trim(JsSpace, newItem);
    if trimmed != "" && |values| < maxItems then Some(values + [trimmed]) else None
  }

  /** `handleUpdateItem`'s update (frontend/src/components/persona/InlineEditor.tsx:189-193). */
  function UpdateItem(values: seq<string>, index: int, newValue: string): (r: seq<string>)
    requires 0 <= index < |values|
    ensures |r| == |values| && r[index] == newValue
    ensures forall j :: 0 <= j < |values| && j != index ==> r[j] == values[j]
  {
    values[index := newValue]
  }

  /** `values.filter((_, i) => i !== index)`, the update of `handleRemoveItem`
      (frontend/src/components/persona/InlineEditor.tsx:195-197): position `index` goes, the rest
      keep their order, and an index outside the list removes nothing. */
  function RemoveItem(values: seq<string>, index: int): (r: seq<string>)
    ensures 0 <= index < |values| ==> r == values[..index] + values[index + 1..]
    ensures !(0 <= index < |values|) ==> r == values
  {
    if values == [] then []
    else if index == 0 then RemoveItem(values[1..], index - 1)
    else
      var rest := RemoveItem(values[1..], index - 1);
      assert 0 < index < |values| ==> [values[0]] + values[1..][..index - 1] == values[..index];
      [values[0]] + rest
  }

  /** Removing the item just added gives back the list. */
  lemma RemoveUndoesAdd(values: seq<string>, newItem: string, maxItems: int)
    requires AddItem(values, newItem, maxItems).Some?
    ensures RemoveItem(AddItem(values, newItem, maxItems).value, |values|) == values
  {
    RemoveLastItem(values, Trim(JsSpace, newItem));
  }

  lemma RemoveLastItem(values: seq<string>, item: string)
    ensures RemoveItem(values + [item], |values|) == values
  {
    var a := values + [item];
    assert a[..|values|] == values;
    assert a[|values| + 1..] == [];
  }

  /** Adding keeps a list that is within its limit within it. */
  lemma AddKeepsLimit(values: seq<string>, newItem: string, maxItems: int)
    requires |values| <= maxItems
    ensures AddItem(values, newItem, maxItems).Some? ==> |AddItem(values, newItem, maxItems).value| <= maxItems
  {
  }

  /** Editing an item and then removing it leaves what removing it alone leaves. */
  lemma RemoveAfterUpdate(values: seq<string>, index: int, newValue: string)
    requires 0 <= index < |values|
    ensures RemoveItem(UpdateItem(values, index, newValue), index) == RemoveItem(values, index)
  {
    var u := UpdateItem(values, index, newValue);
    assert u[..index] == values[..index];
    assert u[index + 1..] == values[index + 1..];
  }

  datatype Draft = Draft(newItem: string, isAdding: bool)

  /** `handleAddItem`: when the item is added the draft is emptied and the add box closed;
      otherwise nothing changes. */
  function AddStep(d: Draft, values: seq<string>, maxItems: int): (r: (Draft, Option<seq<string>>))
    ensures r.1 == AddItem(values, d.newItem, maxItems)
    ensures r.0 == if r.1.Some? then Draft("", false) else d
  {
    match AddItem(values, d.newItem, maxItems)
    case Some(vs) => (Draft("", false), Some(vs))
    case None => (d, None)
  }

  /** The list editor's `handleKeyDown` (frontend/src/components/persona/InlineEditor.tsx:199-207):
      Enter adds, Escape empties the draft and closes the add box. */
  function ListKeyDown(d: Draft, values: seq<string>, maxItems: int, key: string): (r: (Draft, Option<seq<string>>))
    ensures key == "Enter" ==> r == AddStep(d, values, maxItems)
    ensures key == "Escape" ==> r == (Draft("", false), None)
    ensures key != "Enter" && key != "Escape" ==> r == (d, None)
  {
    if key == "Enter" then AddStep(d, values, maxItems)
    else if key == "Escape" then (Draft("", false), None)
    else (d, None)
  }

  /** The list editor. `values` and `maxItems` are its props; each handler returns the list it
      passes to `onUpdate`. */
  class ListEditor {
    var newItem: string
    var isAdding: bool
    const values: seq<string>
    const maxItems: int

    function State(): Draft
      reads this
    {
      Draft(newItem, isAdding)
    }

    constructor (values: seq<string>, maxItems: int)
      ensures State() == Draft("", false) && this.values == values && this.maxItems == maxItems
    {
      this.values, this.maxItems := values, maxItems;
      newItem, isAdding := "", false;
    }

    method HandleAddItem() returns (update: Option<seq<string>>)
      modifies this
      ensures (State(), update) == AddStep(old(State()), values, maxItems)
    {
      var trimmed := Trim(JsSpace, newItem);
      update := None;
      if trimmed != "" && |values| < maxItems {
        update := Some(values + [trimmed]);
        newItem, isAdding := "", false;
      }
    }

    method HandleUpdateItem(index: int, newValue: string) returns (update: seq<string>)
      requires 0 <= index < |values|
      ensures update == UpdateItem(values, index, newValue)
    {
      update := values;
      update := update[index := newValue];
    }

    method HandleRemoveItem(index: int) returns (update: seq<string>)
      ensures update == RemoveItem(values, index)
    {
      update := RemoveItem(values, index);
    }

    method HandleKeyDown(key: string) returns (update: Option<seq<string>>)
      modifies this
      ensures (State(), update) == ListKeyDown(old(State()), values, maxItems, key)
    {
      update := None;
      if key == "Enter" {
        update := HandleAddItem();
      } else if key == "Escape" {
        newItem, isAdding := "", false;
      }
    }
  }
}
