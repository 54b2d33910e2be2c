/**
 * The form builder's store (lib/form-context.tsx): the field model, the
 * built-in default form, the pure field-sequence updates and the store object
 * whose operations replace its current form and selection.
 */
module FormContext {
  import opened Wrappers
  import opened Collections

  /** The `type` strings of the seven field kinds. */
  const KnownTags: seq<string> := ["text", "email", "textarea", "select", "checkbox", "radio", "submit"]

  /** A `type` string that is none of the seven kinds. */
  type OtherTag = s: string | s !in KnownTags witness ""

  /**
   * The seven field kinds, plus any other tag a field may carry at run time.
   * Every `type` string has exactly one representation (see `TagRoundTrip`).
   */
  datatype FieldType = Text | Email | Textarea | Select | Checkbox | Radio | Submit | OtherType(tag: OtherTag)
  {
    /** The string value of the `type` field. */
    function Tag(): string {
      match this
      case Text => "text"
      case Email => "email"
      case Textarea => "textarea"
      case Select => "select"
      case Checkbox => "checkbox"
      case Radio => "radio"
      case Submit => "submit"
      case OtherType(t) => t
    }

    predicate Known() {
      !OtherType?
    }
  }

  /** The field type a `type` string denotes. */
  function FieldTypeOf(s: string): (ft: FieldType)
    ensures ft.Tag() == s
    ensures ft.Known() <==> s in KnownTags
  {
    if s == "text" then Text
    else if s == "email" then Email
    else if s == "textarea" then Textarea
    else if s == "select" then Select
    else if s == "checkbox" then Checkbox
    else if s == "radio" then Radio
    else if s == "submit" then Submit
    else OtherType(s)
  }

  /** A field type and its `type` string determine each other. */
  lemma TagRoundTrip(ft: FieldType, s: string)
    ensures FieldTypeOf(ft.Tag()) == ft
    ensures ft.Tag() == s <==> ft == FieldTypeOf(s)
  {
  }

  datatype ValidationKind = EmailRule | TextRule | CustomRule

  datatype ValidationRule = ValidationRule(kind: Option<ValidationKind>, pattern: Option<string>)

  datatype FormField = FormField(
    id: string,
    fieldType: FieldType,
    labelText: string,
    placeholder: string,
    required: bool,
    defaultValue: Option<string>,
    options: Option<seq<string>>,
    validation: Option<ValidationRule>,
    name: Option<string>)

  datatype Theme = Light | Dark

  datatype FormConfig = FormConfig(
    fields: seq<FormField>,
    theme: Theme,
    primaryColor: string,
    secondaryColor: string)

  /** A `Partial<FormField>`: each key absent or present. */
  datatype FieldPatch = FieldPatch(
    id: Upd<string>,
    fieldType: Upd<FieldType>,
    labelText: Upd<string>,
    placeholder: Upd<string>,
    required: Upd<bool>,
    defaultValue: Upd<Option<string>>,
    options: Upd<Option<seq<string>>>,
    validation: Upd<Option<ValidationRule>>,
    name: Upd<Option<string>>)

  /** The patch `{}`. */
  const EmptyPatch := FieldPatch(Keep, Keep, Keep, Keep, Keep, Keep, Keep, Keep, Keep)

  /** `{ ...f, ...patch }`. */
  function Merge(f: FormField, patch: FieldPatch): FormField {
    FormField(
      patch.id.Over(f.id),
      patch.fieldType.Over(f.fieldType),
      patch.labelText.Over(f.labelText),
      patch.placeholder.Over(f.placeholder),
      patch.required.Over(f.required),
      patch.defaultValue.Over(f.defaultValue),
      patch.options.Over(f.options),
      patch.validation.Over(f.validation),
      patch.name.Over(f.name))
  }

  lemma MergeEmpty(f: FormField)
    ensures Merge(f, EmptyPatch) == f
  {
  }

  /** The built-in form every session starts from and `resetForm` restores. */
  function DefaultForm(): FormConfig {
    FormConfig(
      [ FormField("1", Text, "Full Name", "Enter your full name", true, None, None, None, Some("fullName")),
        FormField("2", Email, "Email Address", "Enter your email", true, None, None,
                  Some(ValidationRule(Some(EmailRule), None)), Some("email")),
        FormField("3", Textarea, "Message", "Enter your message", true, None, None, None, Some("message")),
        FormField("4", Submit, "Send Message", "", false, None, None, None, Some("submit")) ],
      Light, "#6366f1", "#e0e7ff")
  }

  lemma DefaultFormShape()
    ensures var d := DefaultForm();
      && |d.fields| == 4
      && d.fields[0].id == "1" && d.fields[1].id == "2" && d.fields[2].id == "3" && d.fields[3].id == "4"
      && d.fields[3].fieldType == Submit && d.fields[3].labelText == "Send Message"
      && (forall k :: 0 <= k < 3 ==> d.fields[k].fieldType != Submit && d.fields[k].required)
      && d.theme == Light && d.primaryColor == "#6366f1" && d.secondaryColor == "#e0e7ff"
      && UniqueIds(d.fields)
  {
  }

  // ---------------------------------------------------------------------------
  // Pure updates of the field sequence

  function Ids(fields: seq<FormField>): seq<string> {
    seq(|fields|, k requires 0 <= k < |fields| => fields[k].id)
  }

  /** No two fields share an id. */
  predicate UniqueIds(fields: seq<FormField>) {
    forall i, j :: 0 <= i < j < |fields| ==> fields[i].id != fields[j].id
  }

  /** `fields.map((f) => (f.id === id ? { ...f, ...patch } : f))`. */
  function UpdatedFields(fields: seq<FormField>, id: string, patch: FieldPatch): (r: seq<FormField>)
    ensures |r| == |fields|
    ensures forall k :: 0 <= k < |fields| && fields[k].id != id ==> r[k] == fields[k]
    ensures forall k :: 0 <= k < |fields| && fields[k].id == id ==> r[k] == Merge(fields[k], patch)
  {
    seq(|fields|, k requires 0 <= k < |fields| => if fields[k].id == id then Merge(fields[k], patch) else fields[k])
  }

  /** `fields.filter((f) => f.id !== id)`. */
  function RemovedFields(fields: seq<FormField>, id: string): seq<FormField> {
    Filter((f: FormField) => f.id != id, fields)
  }

  /** The sequence without its element at `i` (`splice(i, 1)`). */
  function RemoveAt<T>(s: seq<T>, i: nat): (r: seq<T>)
    requires i < |s|
    ensures |r| == |s| - 1
  {
    s[..i] + s[i + 1..]
  }

  /** The sequence with `x` inserted before position `i` (`splice(i, 0, x)`). */
  function InsertAt<T>(s: seq<T>, i: nat, x: T): (r: seq<T>)
    requires i <= |s|
    ensures |r| == |s| + 1
  {
    s[..i] + [x] + s[i..]
  }

  /** The field order after `reorderFields(from, to)`. */
  function Moved<T>(s: seq<T>, from: nat, to: nat): seq<T>
    requires from < |s| && to < |s|
  {
    InsertAt(RemoveAt(s, from), to, s[from])
  }

  // ---------------------------------------------------------------------------
  // Properties of the updates

  /** Appending keeps the earlier fields, in order, and adds one at the end. */
  lemma AppendKeepsPrefix(fields: seq<FormField>, f: FormField)
    ensures var r := fields + [f];
      |r| == |fields| + 1 && r[..|fields|] == fields && r[|fields|] == f
  {
  }

  /** An id no field has leaves the fields identical. */
  lemma UpdateUnknownId(fields: seq<FormField>, id: string, patch: FieldPatch)
    requires forall k :: 0 <= k < |fields| ==> fields[k].id != id
    ensures UpdatedFields(fields, id, patch) == fields
  {
  }

  /** The empty patch leaves the fields identical. */
  lemma UpdateEmptyPatch(fields: seq<FormField>, id: string)
    ensures UpdatedFields(fields, id, EmptyPatch) == fields
  {
    var r := UpdatedFields(fields, id, EmptyPatch);
    forall k | 0 <= k < |fields| ensures r[k] == fields[k] {
      MergeEmpty(fields[k]);
    }
  }

  /** A patch that does not touch `id` keeps the id sequence, hence uniqueness. */
  lemma UpdateKeepsIds(fields: seq<FormField>, id: string, patch: FieldPatch)
    requires patch.id == Keep
    ensures Ids(UpdatedFields(fields, id, patch)) == Ids(fields)
    ensures UniqueIds(fields) ==> UniqueIds(UpdatedFields(fields, id, patch))
  {
    var r := UpdatedFields(fields, id, patch);
    assert forall k :: 0 <= k < |fields| ==> r[k].id == fields[k].id;
  }

  /** Removal leaves no field with the id and keeps the others in order. */
  lemma RemoveProperties(fields: seq<FormField>, id: string)
    ensures forall k :: 0 <= k < |RemovedFields(fields, id)| ==> RemovedFields(fields, id)[k].id != id
    ensures IsSubseq(RemovedFields(fields, id), fields)
    ensures forall f :: f in fields && f.id != id ==> f in RemovedFields(fields, id)
    ensures (forall k :: 0 <= k < |fields| ==> fields[k].id != id) ==> RemovedFields(fields, id) == fields
  {
    var p := (f: FormField) => f.id != id;
    if forall k :: 0 <= k < |fields| ==> fields[k].id != id {
      FilterAll(p, fields);
    }
  }

  lemma {:induction false} SubseqKeepsUnique(a: seq<FormField>, b: seq<FormField>)
    requires IsSubseq(a, b) && UniqueIds(b)
    ensures UniqueIds(a)
    decreases |b|
  {
    if a != [] && b != [] {
      assert UniqueIds(b[1..]) by {
        forall i, j | 0 <= i < j < |b[1..]| ensures b[1..][i].id != b[1..][j].id {
          assert b[1..][i] == b[i + 1] && b[1..][j] == b[j + 1];
        }
      }
      if a[0] == b[0] && IsSubseq(a[1..], b[1..]) {
        SubseqKeepsUnique(a[1..], b[1..]);
        SubseqElements(a[1..], b[1..]);
        forall j | 0 < j < |a| ensures a[0].id != a[j].id {
          assert a[j] == a[1..][j - 1];
          assert a[j] in a[1..];
          var m :| 0 <= m < |b[1..]| && b[1..][m] == a[j];
          assert b[m + 1] == a[j];
        }
      } else {
        SubseqKeepsUnique(a, b[1..]);
      }
    }
  }

  lemma {:induction false} SubseqElements<T>(a: seq<T>, b: seq<T>)
    requires IsSubseq(a, b)
    ensures forall x :: x in a ==> x in b
    decreases |b|
  {
    if a != [] && b != [] {
      if a[0] == b[0] && IsSubseq(a[1..], b[1..]) {
        SubseqElements(a[1..], b[1..]);
        assert a == [a[0]] + a[1..];
      } else {
        SubseqElements(a, b[1..]);
      }
    }
  }

  /** Removal never introduces a duplicate id. */
  lemma RemoveKeepsUnique(fields: seq<FormField>, id: string)
    requires UniqueIds(fields)
    ensures UniqueIds(RemovedFields(fields, id))
  {
    SubseqKeepsUnique(RemovedFields(fields, id), fields);
  }

  /** Appending a field with a fresh id keeps ids unique. */
  lemma AppendFreshKeepsUnique(fields: seq<FormField>, f: FormField)
    requires UniqueIds(fields)
    requires forall k :: 0 <= k < |fields| ==> fields[k].id != f.id
    ensures UniqueIds(fields + [f])
  {
  }

  /** The moved element lands at `to`; the others keep their relative order. */
  lemma MoveProperties<T>(s: seq<T>, from: nat, to: nat)
    requires from < |s| && to < |s|
    ensures |Moved(s, from, to)| == |s|
    ensures Moved(s, from, to)[to] == s[from]
    ensures RemoveAt(Moved(s, from, to), to) == RemoveAt(s, from)
    ensures multiset(Moved(s, from, to)) == multiset(s)
  {
    var rest := RemoveAt(s, from);
    var m := Moved(s, from, to);
    assert m[..to] == rest[..to];
    assert m[to + 1..] == rest[to..];
    assert s == s[..from] + [s[from]] + s[from + 1..];
    calc {
      multiset(m);
      multiset(rest[..to] + [s[from]] + rest[to..]);
      multiset(rest[..to]) + multiset{s[from]} + multiset(rest[to..]);
      { assert rest[..to] + rest[to..] == rest; }
      multiset(rest) + multiset{s[from]};
      multiset(s[..from]) + multiset(s[from + 1..]) + multiset{s[from]};
      multiset(s);
    }
  }

  lemma InsertRemoveAt<T>(s: seq<T>, i: nat)
    requires i < |s|
    ensures InsertAt(RemoveAt(s, i), i, s[i]) == s
  {
    var r := RemoveAt(s, i);
    assert r[..i] == s[..i];
    assert r[i..] == s[i + 1..];
  }

  /** Moving from i to j and back from j to i restores the sequence. */
  lemma MoveRoundTrip<T>(s: seq<T>, i: nat, j: nat)
    requires i < |s| && j < |s|
    ensures var m := Moved(s, i, j); |m| == |s| && Moved(m, j, i) == s
  {
    MoveProperties(s, i, j);
    var m := Moved(s, i, j);
    assert Moved(m, j, i) == InsertAt(RemoveAt(s, i), i, s[i]);
    InsertRemoveAt(s, i);
  }

  /** The position in `s` that position `k` of `Moved(s, from, to)` comes from. */
  function MovedSource(k: nat, from: nat, to: nat): nat {
    if k == to then from
    else
      var r := if k < to then k else k - 1;
      if r < from then r else r + 1
  }

  lemma MovedAt<T>(s: seq<T>, from: nat, to: nat, k: nat)
    requires from < |s| && to < |s| && k < |s|
    ensures MovedSource(k, from, to) < |s|
    ensures Moved(s, from, to)[k] == s[MovedSource(k, from, to)]
  {
  }

  /** A move puts every field somewhere and no two positions share a source. */
  lemma MovedSourceInjective(from: nat, to: nat, i: nat, j: nat)
    requires i != j
    ensures MovedSource(i, from, to) != MovedSource(j, from, to)
  {
  }

  /** A move keeps ids unique. */
  lemma MoveKeepsUnique(fields: seq<FormField>, from: nat, to: nat)
    requires from < |fields| && to < |fields|
    requires UniqueIds(fields)
    ensures UniqueIds(Moved(fields, from, to))
  {
    var m := Moved(fields, from, to);
    MoveProperties(fields, from, to);
    forall i, j | 0 <= i < j < |m| ensures m[i].id != m[j].id {
      MovedAt(fields, from, to, i);
      MovedAt(fields, from, to, j);
      MovedSourceInjective(from, to, i, j);
      var a, b := MovedSource(i, from, to), MovedSource(j, from, to);
      assert a < b || b < a;
    }
  }

  // ---------------------------------------------------------------------------
  // The store

  /**
   * The provider's state: the current form and the (weak) id of the field
   * selected for editing. Each operation replaces them as a whole.
   */
  class FormStore {
    var form: FormConfig
    var selectedFieldId: Option<string>

    constructor ()
      ensures form == DefaultForm() && selectedFieldId == None
    {
      form := DefaultForm();
      selectedFieldId := None;
    }

    method SetForm(f: FormConfig)
      modifies this
      ensures form == f && selectedFieldId == old(selectedFieldId)
    {
      form := f;
    }

    /** No check that a field with the id exists: readers tolerate a dangling id. */
    method SetSelectedFieldId(id: Option<string>)
      modifies this
      ensures selectedFieldId == id && form == old(form)
    {
      selectedFieldId := id;
    }

    method AddField(field: FormField)
      modifies this
      ensures form == old(form).(fields := old(form).fields + [field])
      ensures selectedFieldId == old(selectedFieldId)
    {
      form := form.(fields := form.fields + [field]);
    }

    method UpdateField(id: string, patch: FieldPatch)
      modifies this
      ensures form == old(form).(fields := UpdatedFields(old(form).fields, id, patch))
      ensures selectedFieldId == old(selectedFieldId)
    {
      form := form.(fields := UpdatedFields(form.fields, id, patch));
    }

    /** Removes the field and clears the selection, whichever field was selected. */
    method RemoveField(id: string)
      modifies this
      ensures form == old(form).(fields := RemovedFields(old(form).fields, id))
      ensures selectedFieldId == None
    {
      form := form.(fields := RemovedFields(form.fields, id));
      selectedFieldId := None;
    }

    /** Copies the fields, then splices the element out and back in. */
    method ReorderFields(fromIndex: nat, toIndex: nat)
      requires fromIndex < |form.fields| && toIndex < |form.fields|
      modifies this
      ensures form == old(form).(fields := Moved(old(form).fields, fromIndex, toIndex))
      ensures selectedFieldId == old(selectedFieldId)
    {
      var newFields := form.fields;
      var removed := newFields[fromIndex];
      newFields := newFields[..fromIndex] + newFields[fromIndex + 1..];
      newFields := newFields[..toIndex] + [removed] + newFields[toIndex..];
      form := form.(fields := newFields);
    }

    method SetTheme(theme: Theme)
      modifies this
      ensures form == old(form).(theme := theme) && selectedFieldId == old(selectedFieldId)
    {
      form := form.(theme := theme);
    }

    method SetPrimaryColor(color: string)
      modifies this
      ensures form == old(form).(primaryColor := color) && selectedFieldId == old(selectedFieldId)
    {
      form := form.(primaryColor := color);
    }

    method SetSecondaryColor(color: string)
      modifies this
      ensures form == old(form).(secondaryColor := color) && selectedFieldId == old(selectedFieldId)
    {
      form := form.(secondaryColor := color);
    }

    method ResetForm()
      modifies this
      ensures form == DefaultForm() && selectedFieldId == None
    {
      form := DefaultForm();
      selectedFieldId := None;
    }
  }
}
