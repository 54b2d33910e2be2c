/**
 * The field editor (components/field-editor.tsx): it looks up the selected
 * field, shows the controls that suit its type, turns each control's input
 * into a one-key patch and sends it, or a removal, to the form store.
 */
module FieldEditor {
  import opened Wrappers
  import opened Collections
  import Str = Text
  import opened FormContext

  /** `fields.find((f) => f.id === selectedFieldId)`; no field matches a null selection. */
  function SelectedField(fields: seq<FormField>, selected: Option<string>): (r: Option<FormField>)
    ensures r.Some? ==> selected.Some? && r.value in fields && r.value.id == selected.value
    ensures selected.None? ==> r.None?
    ensures selected.Some? && r.None? ==> forall k :: 0 <= k < |fields| ==> fields[k].id != selected.value
  {
    if selected.None? || fields == [] then None
    else if fields[0].id == selected.value then Some(fields[0])
    else SelectedField(fields[1..], selected)
  }

  /** The field found is the first one with the selected id. */
  lemma {:induction false} SelectedIsFirst(fields: seq<FormField>, id: string, k: nat)
    requires k < |fields| && fields[k].id == id
    requires forall j :: 0 <= j < k ==> fields[j].id != id
    ensures SelectedField(fields, Some(id)) == Some(fields[k])
  {
    if k > 0 {
      SelectedIsFirst(fields[1..], id, k - 1);
    }
  }

  /** What the editor shows: the prompt, or the properties of a field. */
  datatype EditorView = Prompt | Properties(field: FormField)

  function View(fields: seq<FormField>, selected: Option<string>): (v: EditorView)
    ensures v.Prompt? <==> SelectedField(fields, selected).None?
  {
    match SelectedField(fields, selected)
    case None => Prompt
    case Some(f) => Properties(f)
  }

  /** The dangling or null selection shows the prompt. */
  lemma DanglingSelectionPrompts(fields: seq<FormField>, selected: Option<string>)
    requires selected.None? || forall k :: 0 <= k < |fields| ==> fields[k].id != selected.value
    ensures View(fields, selected) == Prompt
  {
  }

  // ---------------------------------------------------------------------------
  // Controls

  /** The kind of default-value control a type gets. */
  datatype ValueControl = SingleLine | MultiLine

  /** A default-value input for every type but submit: multi-line for textarea. */
  function DefaultValueControl(ft: FieldType): Option<ValueControl> {
    if ft == Textarea then Some(MultiLine)
    else if ft == Submit then None
    else Some(SingleLine)
  }

  /** `['select', 'radio', 'checkbox'].includes(field.type)`. */
  predicate ShowsOptions(ft: FieldType) {
    ft.Tag() in ["select", "radio", "checkbox"]
  }

  lemma ControlGating(ft: FieldType)
    ensures ShowsOptions(ft) <==> ft == Select || ft == Radio || ft == Checkbox
    ensures DefaultValueControl(ft).None? <==> ft == Submit
    ensures DefaultValueControl(ft) == Some(MultiLine) <==> ft == Textarea
  {
  }

  /** The state of the required checkbox. */
  datatype CheckedState = Checked | Unchecked | Indeterminate

  /** `checked === true`. */
  function RequiredValue(c: CheckedState): (r: bool)
    ensures r <==> c == Checked
  {
    c == Checked
  }

  /** `value.split('\n').filter(Boolean)`. */
  function ParseOptions(text: string): (r: seq<string>)
    ensures forall k :: 0 <= k < |r| ==> r[k] != [] && '\n' !in r[k]
  {
    Str.DropEmpty(Str.Split(text, '\n'))
  }

  /** `(field.options || []).join('\n')`. */
  function OptionsText(f: FormField): string {
    Str.Join(f.options.GetOr([]), "\n")
  }

  /** The lines typed into the options box, in order and without the empty ones. */
  lemma ParseKeepsLines(text: string)
    ensures forall p :: p in Str.Split(text, '\n') && p != [] ==> p in ParseOptions(text)
    ensures |ParseOptions(text)| <= |Str.Split(text, '\n')|
  {
  }

  /** An option list without empty entries and line breaks survives display and re-parsing. */
  lemma OptionsRoundTrip(os: seq<string>)
    requires forall k :: 0 <= k < |os| ==> os[k] != [] && '\n' !in os[k]
    ensures ParseOptions(Str.Join(os, "\n")) == os
  {
    if os == [] {
      assert Str.Split([], '\n') == [[]];
    } else {
      Str.SplitJoin(os, '\n');
      Str.DropEmptyKeepsNonEmpty(os);
    }
  }

  /** One control's input. */
  datatype Edit =
    | EditLabel(labelText: string)
    | EditPlaceholder(placeholder: string)
    | EditDefaultValue(defaultValue: string)
    | EditOptions(optionsText: string)
    | EditRequired(checked: CheckedState)

  /** The patch `{ [key]: value }` the control's handler passes to `updateField`. */
  function EditPatch(e: Edit): FieldPatch {
    match e
    case EditLabel(v) => EmptyPatch.(labelText := Put(v))
    case EditPlaceholder(v) => EmptyPatch.(placeholder := Put(v))
    case EditDefaultValue(v) => EmptyPatch.(defaultValue := Put(Some(v)))
    case EditOptions(text) => EmptyPatch.(options := Put(Some(ParseOptions(text))))
    case EditRequired(c) => EmptyPatch.(required := Put(RequiredValue(c)))
  }

  /** The field after the edit, as a one-key record update. */
  function Edited(f: FormField, e: Edit): FormField {
    match e
    case EditLabel(v) => f.(labelText := v)
    case EditPlaceholder(v) => f.(placeholder := v)
    case EditDefaultValue(v) => f.(defaultValue := Some(v))
    case EditOptions(text) => f.(options := Some(ParseOptions(text)))
    case EditRequired(c) => f.(required := c == Checked)
  }

  /** Each edit's patch changes its own key of the field and no other. */
  lemma PatchIsOneKey(f: FormField, e: Edit)
    ensures Merge(f, EditPatch(e)) == Edited(f, e)
    ensures Merge(f, EditPatch(e)).id == f.id
  {
  }

  /** Editing the selected field changes that field (every field with its id) and only it. */
  lemma EditTouchesOnlySelected(fields: seq<FormField>, id: string, e: Edit)
    ensures var r := UpdatedFields(fields, id, EditPatch(e));
      && |r| == |fields|
      && (forall k :: 0 <= k < |fields| ==> r[k] == if fields[k].id == id then Edited(fields[k], e) else fields[k])
      && Ids(r) == Ids(fields)
  {
    var r := UpdatedFields(fields, id, EditPatch(e));
    forall k | 0 <= k < |fields| ensures r[k] == if fields[k].id == id then Edited(fields[k], e) else fields[k] {
      PatchIsOneKey(fields[k], e);
    }
  }

  /** `handleUpdateField(key, value)`; the handlers exist only while a field is selected. */
  method HandleUpdateField(store: FormStore, e: Edit)
    requires SelectedField(store.form.fields, store.selectedFieldId).Some?
    modifies store
    ensures store.form == old(store.form).(fields := UpdatedFields(old(store.form).fields, old(store.selectedFieldId).value, EditPatch(e)))
    ensures store.selectedFieldId == old(store.selectedFieldId)
  {
    store.UpdateField(store.selectedFieldId.value, EditPatch(e));
  }

  /** `handleRemoveField`: the selected field goes and the selection is cleared. */
  method HandleRemoveField(store: FormStore)
    requires SelectedField(store.form.fields, store.selectedFieldId).Some?
    modifies store
    ensures store.form == old(store.form).(fields := RemovedFields(old(store.form).fields, old(store.selectedFieldId).value))
    ensures store.selectedFieldId == None
  {
    store.RemoveField(store.selectedFieldId.value);
  }
}
