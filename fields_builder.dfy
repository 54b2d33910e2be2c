/**
 * The field list of the builder (components/fields-builder.tsx): the
 * drag-and-drop state, the drop handler, the type icons and the card actions.
 *
 * The drop handler as written computes the new order in a local copy and
 * then sends only empty patches to the store, so the form never changes:
 * `HandleDrop` models that code and `HandleDropReordering` the evidently
 * intended handler, which reorders the fields.
 */
module FieldsBuilder {
  import opened Wrappers
  import opened FormContext
  import FieldPalette

  /** `findIndex((f) => f.id === id)`: the first position with the id, or -1. */
  function FindIndex(fields: seq<FormField>, id: string): (r: int)
    ensures -1 <= r < |fields|
    ensures r == -1 <==> forall k :: 0 <= k < |fields| ==> fields[k].id != id
    ensures r >= 0 ==> fields[r].id == id && forall j :: 0 <= j < r ==> fields[j].id != id
  {
    if fields == [] then -1
    else if fields[0].id == id then 0
    else
      var r := FindIndex(fields[1..], id);
      if r == -1 then -1 else r + 1
  }

  /** `!draggedId || draggedId === targetId`: the empty id counts as no drag. */
  predicate DropIgnored(draggedId: Option<string>, targetId: string) {
    draggedId.None? || draggedId.value == "" || draggedId.value == targetId
  }

  /** The component's `draggedId` state. */
  class DragState {
    var draggedId: Option<string>

    constructor ()
      ensures draggedId == None
    {
      draggedId := None;
    }

    method HandleDragStart(id: string)
      modifies this
      ensures draggedId == Some(id)
    {
      draggedId := Some(id);
    }

    /**
     * `handleDrop(targetId)` as written: the moved order is built in a local
     * copy, and then every field gets `updateField(field.id, {})`.
     */
    method HandleDrop(store: FormStore, targetId: string)
      modifies this, store
      ensures store.form == old(store.form) && store.selectedFieldId == old(store.selectedFieldId)
      ensures DropIgnored(old(draggedId), targetId) ==> draggedId == old(draggedId)
      ensures !DropIgnored(old(draggedId), targetId) ==> draggedId == None
    {
      if DropIgnored(draggedId, targetId) {
        return;
      }
      var fromIndex := FindIndex(store.form.fields, draggedId.value);
      var toIndex := FindIndex(store.form.fields, targetId);
      if fromIndex != -1 && toIndex != -1 {
        var newFields := store.form.fields;
        var moved := newFields[fromIndex];
        newFields := newFields[..fromIndex] + newFields[fromIndex + 1..];
        newFields := newFields[..toIndex] + [moved] + newFields[toIndex..];
        var fields := store.form.fields;
        for index := 0 to |fields|
          invariant store.form == old(store.form) && store.selectedFieldId == old(store.selectedFieldId)
        {
          UpdateEmptyPatch(store.form.fields, fields[index].id);
          store.UpdateField(fields[index].id, EmptyPatch);
        }
      }
      draggedId := None;
    }

    /** The drop handler as intended: the dragged field moves to the target's position. */
    method HandleDropReordering(store: FormStore, targetId: string)
      modifies this, store
      ensures var from, to := FindIndex(old(store.form).fields, old(draggedId).GetOr("")),
                              FindIndex(old(store.form).fields, targetId);
        if DropIgnored(old(draggedId), targetId) || from == -1 || to == -1 then
          store.form == old(store.form)
        else
          store.form == old(store.form).(fields := Moved(old(store.form).fields, from, to))
      ensures store.selectedFieldId == old(store.selectedFieldId)
      ensures DropIgnored(old(draggedId), targetId) ==> draggedId == old(draggedId)
      ensures !DropIgnored(old(draggedId), targetId) ==> draggedId == None
    {
      if DropIgnored(draggedId, targetId) {
        return;
      }
      var fromIndex := FindIndex(store.form.fields, draggedId.value);
      var toIndex := FindIndex(store.form.fields, targetId);
      if fromIndex != -1 && toIndex != -1 {
        store.ReorderFields(fromIndex, toIndex);
      }
      draggedId := None;
    }
  }

  /**
   * A real move of a field with a unique id changes the order, so a drop
   * handler that leaves the form unchanged cannot be the intended one.
   */
  lemma MoveChangesOrder(fields: seq<FormField>, from: nat, to: nat)
    requires from < |fields| && to < |fields| && from != to
    requires UniqueIds(fields)
    ensures Moved(fields, from, to) != fields
  {
    MoveProperties(fields, from, to);
    assert Moved(fields, from, to)[to].id == fields[from].id != fields[to].id;
  }

  /** Dragging "Full Name" onto "Email Address" in the default form: the order should change. */
  lemma DefaultFormDropCounterexample()
    ensures var fs := DefaultForm().fields;
      && FindIndex(fs, "1") == 0 && FindIndex(fs, "2") == 1
      && Moved(fs, 0, 1) == [fs[1], fs[0]] + fs[2..]
      && Moved(fs, 0, 1) != fs
  {
    var fs := DefaultForm().fields;
    DefaultFormShape();
    MoveChangesOrder(fs, 0, 1);
    MoveFirstOntoSecond(fs);
  }

  /** Moving the first element onto the second swaps the two. */
  lemma MoveFirstOntoSecond<T>(s: seq<T>)
    requires |s| >= 2
    ensures Moved(s, 0, 1) == [s[1], s[0]] + s[2..]
  {
    var rest := RemoveAt(s, 0);
    assert rest == s[1..];
    assert rest[..1] == [s[1]] && rest[1..] == s[2..];
  }

  /** The intended drop puts the dragged field at the target's index and loses or duplicates no field. */
  lemma ReorderingPlacesDragged(fields: seq<FormField>, dragged: string, target: string)
    requires FindIndex(fields, dragged) >= 0 && FindIndex(fields, target) >= 0
    ensures var m := Moved(fields, FindIndex(fields, dragged), FindIndex(fields, target));
      && m[FindIndex(fields, target)].id == dragged
      && multiset(m) == multiset(fields)
  {
    MoveProperties(fields, FindIndex(fields, dragged), FindIndex(fields, target));
  }

  // ---------------------------------------------------------------------------
  // Icons and card actions

  const FallbackIcon := "\U{1F4CB}"

  /** `icons[type] || '📋'`. */
  function GetFieldIcon(tag: string): string {
    if tag == "text" then "\U{1F4DD}"
    else if tag == "email" then "\U{2709}\U{FE0F}"
    else if tag == "textarea" then "\U{1F4C4}"
    else if tag == "select" then "\U{25BC}"
    else if tag == "checkbox" then "\U{2611}\U{FE0F}"
    else if tag == "radio" then "\U{25EF}"
    else if tag == "submit" then "\U{25B6}\U{FE0F}"
    else FallbackIcon
  }

  /** The seven kinds get seven different icons; any other type the fallback. */
  lemma IconsPerKind(a: FieldType, b: FieldType)
    ensures a.Known() <==> GetFieldIcon(a.Tag()) != FallbackIcon
    ensures a.Known() && b.Known() && a != b ==> GetFieldIcon(a.Tag()) != GetFieldIcon(b.Tag())
  {
  }

  /** The builder shows each palette template's own icon. */
  lemma PaletteIconsAgree(k: nat)
    requires k < |FieldPalette.FieldTemplates|
    ensures GetFieldIcon(FieldPalette.FieldTemplates[k].fieldType.Tag()) == FieldPalette.FieldTemplates[k].icon
  {
  }

  /** Clicking a card selects its field. */
  method SelectCard(store: FormStore, id: string)
    modifies store
    ensures store.selectedFieldId == Some(id) && store.form == old(store.form)
  {
    store.SetSelectedFieldId(Some(id));
  }

  /** The card's trash button removes its field. */
  method RemoveCard(store: FormStore, id: string)
    modifies store
    ensures store.form == old(store.form).(fields := RemovedFields(old(store.form).fields, id))
    ensures store.selectedFieldId == None
  {
    store.RemoveField(id);
  }
}
