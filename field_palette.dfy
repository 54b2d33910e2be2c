/**
 * The field palette (components/field-palette.tsx): the six templates a new
 * field can be made from and the record `handleAddField` builds from one of
 * them before appending it to the form. The random id is a parameter.
 */
module FieldPalette {
  import opened Wrappers
  import Str = Text
  import opened FormContext

  datatype FieldTemplate = FieldTemplate(fieldType: FieldType, labelText: string, icon: string)

  /** `FIELD_TEMPLATES`, in palette order. */
  const FieldTemplates: seq<FieldTemplate> := [
    FieldTemplate(Text, "Text Input", "\U{1F4DD}"),
    FieldTemplate(Email, "Email", "\U{2709}\U{FE0F}"),
    FieldTemplate(Textarea, "Textarea", "\U{1F4C4}"),
    FieldTemplate(Select, "Dropdown", "\U{25BC}"),
    FieldTemplate(Checkbox, "Checkbox", "\U{2611}\U{FE0F}"),
    FieldTemplate(Radio, "Radio", "\U{25EF}")
  ]

  /** There are six templates, one per field type except submit, in this order. */
  lemma TemplatesShape()
    ensures |FieldTemplates| == 6
    ensures TemplateTypes(FieldTemplates) == [Text, Email, Textarea, Select, Checkbox, Radio]
    ensures forall k :: 0 <= k < |FieldTemplates| ==>
      FieldTemplates[k].fieldType != Submit && FieldTemplates[k].fieldType.Known()
    ensures forall i, j :: 0 <= i < j < |FieldTemplates| ==> FieldTemplates[i].fieldType != FieldTemplates[j].fieldType
  {
  }

  /** The field types of the templates, in order. */
  function TemplateTypes(ts: seq<FieldTemplate>): (r: seq<FieldType>)
    ensures |r| == |ts| && forall k :: 0 <= k < |ts| ==> r[k] == ts[k].fieldType
  {
    seq(|ts|, k requires 0 <= k < |ts| => ts[k].fieldType)
  }

  /**
   * The three conditional spreads: select and radio get two options,
   * checkbox one; for any other type every spread is `false` and adds no key.
   */
  function TemplateOptions(ft: FieldType): Option<seq<string>> {
    var afterSelect := if ft == Select then Some(["Option 1", "Option 2"]) else None;
    var afterRadio := if ft == Radio then Some(["Option 1", "Option 2"]) else afterSelect;
    if ft == Checkbox then Some(["Option 1"]) else afterRadio
  }

  /** The field `handleAddField(template)` passes to `addField`, for the generated `id`. */
  function NewField(template: FieldTemplate, id: string): (f: FormField)
    ensures f.id == id && f.fieldType == template.fieldType && f.labelText == template.labelText
    ensures f.placeholder == "Enter " + Str.ToLower(template.labelText)
    ensures !f.required && f.name == Some("field_" + id)
    ensures f.defaultValue == None && f.validation == None
  {
    FormField(id, template.fieldType, template.labelText, "Enter " + Str.ToLower(template.labelText),
              false, None, TemplateOptions(template.fieldType), None, Some("field_" + id))
  }

  /** Select and radio get two options, checkbox one, the other types none. */
  lemma NewFieldOptions(template: FieldTemplate, id: string)
    ensures var o := NewField(template, id).options;
      && (template.fieldType == Select || template.fieldType == Radio <==> o == Some(["Option 1", "Option 2"]))
      && (template.fieldType == Checkbox <==> o == Some(["Option 1"]))
      && (o == None <==> !(template.fieldType in {Select, Radio, Checkbox}))
  {
    assert ["Option 1"] != ["Option 1", "Option 2"];
  }

  /** The dropdown template's placeholder is "Enter dropdown". */
  lemma DropdownPlaceholder(id: string)
    ensures NewField(FieldTemplates[3], id).placeholder == "Enter dropdown"
  {
    var l := Str.ToLower("Dropdown");
    assert l[0] == Str.LowerChar('D');
    assert l == "dropdown";
  }

  /** A field made with an id no existing field has keeps the ids unique. */
  lemma NewFieldKeepsUnique(fields: seq<FormField>, template: FieldTemplate, id: string)
    requires UniqueIds(fields)
    requires forall k :: 0 <= k < |fields| ==> fields[k].id != id
    ensures UniqueIds(fields + [NewField(template, id)])
  {
    AppendFreshKeepsUnique(fields, NewField(template, id));
  }

  /** `handleAddField`: appends exactly one new field and changes nothing else. */
  method HandleAddField(store: FormStore, template: FieldTemplate, id: string)
    modifies store
    ensures store.form == old(store.form).(fields := old(store.form).fields + [NewField(template, id)])
    ensures store.selectedFieldId == old(store.selectedFieldId)
  {
    store.AddField(NewField(template, id));
  }
}
