/**
 * The add/edit contact dialog (components/contact-form-dialog.tsx): its form
 * state, the validator with its email pattern, the tag editor and the submit
 * handler that hands the form to the contact store.
 */
module ContactFormDialog {
  import opened Wrappers
  import opened Collections
  import opened Text
  import opened ContactContext
  import opened TagEditor

  /** The dialog's `formData` state. */
  datatype FormData = FormData(
    firstName: string,
    lastName: string,
    email: string,
    phone: string,
    category: string,
    tags: seq<string>,
    notes: string)

  /** `s || fallback` on a string: the empty string is falsy. */
  function OrElse(s: string, fallback: string): (r: string)
    ensures s != [] ==> r == s
    ensures s == [] ==> r == fallback
  {
    if s == [] then fallback else s
  }

  /** The initial `formData`: the edited contact's values, with 'Personal' for a missing category. */
  function InitialFormData(contact: Option<Contact>): FormData {
    match contact
    case None => FormData("", "", "", "", "Personal", [], "")
    case Some(c) => FormData(c.firstName, c.lastName, c.email, c.phone, OrElse(c.category, "Personal"), c.tags, c.notes)
  }

  /** A new contact starts empty in category Personal; an edit starts from the contact's values. */
  lemma InitialFormDataShape(contact: Option<Contact>)
    ensures contact.None? ==> InitialFormData(contact) == FormData("", "", "", "", "Personal", [], "")
    ensures contact.Some? ==> var d, c := InitialFormData(contact), contact.value;
      && d.firstName == c.firstName && d.lastName == c.lastName && d.email == c.email
      && d.phone == c.phone && d.tags == c.tags && d.notes == c.notes
      && d.category == (if c.category == [] then "Personal" else c.category)
  {
  }

  // ---------------------------------------------------------------------------
  // The email pattern

  /** `[^\s@]+`: a non-empty run without whitespace and without '@'. */
  predicate Plain(s: string) {
    s != [] && forall k :: 0 <= k < |s| ==> !IsSpace(s[k]) && s[k] != '@'
  }

  /** The pattern matched with its '@' at `i` and the chosen '.' at `j`. */
  predicate PatternAt(s: string, i: int, j: int) {
    0 <= i < j < |s| && s[i] == '@' && s[j] == '.'
    && Plain(s[..i]) && Plain(s[i + 1..j]) && Plain(s[j + 1..])
  }

  /** `/^[^\s@]+@[^\s@]+\.[^\s@]+$/.test(s)`, as the regular expression reads. */
  predicate MatchesEmailPattern(s: string) {
    exists i, j | 0 <= i < j < |s| :: PatternAt(s, i, j)
  }

  /** No whitespace and no '@' at any position of `s[lo..hi]`. */
  predicate PlainBetween(s: string, lo: int, hi: int)
    requires 0 <= lo <= hi <= |s|
  {
    forall k :: lo <= k < hi ==> !IsSpace(s[k]) && s[k] != '@'
  }

  lemma PlainSlice(s: string, lo: int, hi: int)
    requires 0 <= lo <= hi <= |s|
    ensures Plain(s[lo..hi]) <==> lo < hi && PlainBetween(s, lo, hi)
  {
    if lo < hi && PlainBetween(s, lo, hi) {
      forall k | 0 <= k < hi - lo ensures !IsSpace(s[lo..hi][k]) && s[lo..hi][k] != '@' {
        assert s[lo..hi][k] == s[lo + k];
      }
    }
    if Plain(s[lo..hi]) {
      forall k | lo <= k < hi ensures !IsSpace(s[k]) && s[k] != '@' {
        assert s[k] == s[lo..hi][k - lo];
      }
    }
  }

  /** The only '@' of `s` is at `i`. */
  predicate OnlyAtSignAt(s: string, i: int) {
    forall k :: 0 <= k < |s| && s[k] == '@' ==> k == i
  }

  /** A '.' after position `i + 1` and before the last character. */
  predicate DotInDomain(s: string, i: int) {
    exists j | 0 <= j < |s| - 1 && i + 1 < j :: s[j] == '.'
  }

  predicate NoSpace(s: string) {
    forall k :: 0 <= k < |s| ==> !IsSpace(s[k])
  }

  /**
   * What the pattern means: no whitespace, exactly one '@', a non-empty part
   * before it and, after it, a '.' with at least one character on each side.
   */
  predicate EmailShape(s: string) {
    NoSpace(s) && exists i | 0 < i < |s| :: s[i] == '@' && OnlyAtSignAt(s, i) && DotInDomain(s, i)
  }

  lemma PatternHasShape(s: string, i: int, j: int)
    requires PatternAt(s, i, j)
    ensures EmailShape(s)
  {
    PlainSlice(s, 0, i);
    PlainSlice(s, i + 1, j);
    PlainSlice(s, j + 1, |s|);
    assert s[j + 1..] == s[j + 1..|s|];
    assert s[..i] == s[0..i];
    assert NoSpace(s) && OnlyAtSignAt(s, i) by {
      forall k | 0 <= k < |s| ensures !IsSpace(s[k]) && (s[k] == '@' ==> k == i) {
      }
    }
    assert DotInDomain(s, i);
  }

  lemma ShapeHasPattern(s: string, i: int, j: int)
    requires NoSpace(s) && 0 < i < |s| && s[i] == '@' && OnlyAtSignAt(s, i)
    requires i + 1 < j < |s| - 1 && s[j] == '.'
    ensures PatternAt(s, i, j)
  {
    PlainSlice(s, 0, i);
    PlainSlice(s, i + 1, j);
    PlainSlice(s, j + 1, |s|);
    assert s[j + 1..] == s[j + 1..|s|];
    assert s[..i] == s[0..i];
  }

  lemma EmailPatternMeaning(s: string)
    ensures MatchesEmailPattern(s) <==> EmailShape(s)
  {
    if MatchesEmailPattern(s) {
      var i, j :| PatternAt(s, i, j);
      PatternHasShape(s, i, j);
    }
    if EmailShape(s) {
      var i :| 0 < i < |s| && s[i] == '@' && OnlyAtSignAt(s, i) && DotInDomain(s, i);
      var j :| i + 1 < j < |s| - 1 && s[j] == '.';
      ShapeHasPattern(s, i, j);
    }
  }

  /** The pattern is tested on the untrimmed text, so surrounding spaces fail it. */
  lemma PaddedEmailRejected(s: string)
    requires s != [] && (IsSpace(s[0]) || IsSpace(s[|s| - 1]))
    ensures !MatchesEmailPattern(s)
  {
    EmailPatternMeaning(s);
  }

  /** `e@x.io` matches; a second '@' does not. */
  lemma EmailExamples()
    ensures MatchesEmailPattern("e@x.io")
    ensures !MatchesEmailPattern("e@x@y.io")
  {
    ShapeHasPattern("e@x.io", 1, 3);
    EmailPatternMeaning("e@x@y.io");
    assert "e@x@y.io"[1] == '@' && "e@x@y.io"[3] == '@';
  }

  // ---------------------------------------------------------------------------
  // Validation

  /** The keys of `newErrors`. */
  datatype FormKey = FirstName | LastName | EmailKey | Phone

  const FirstNameRequired := "First name is required"
  const LastNameRequired := "Last name is required"
  const EmailRequired := "Email is required"
  const EmailInvalid := "Please enter a valid email"
  const PhoneRequired := "Phone is required"

  /** The form `validateForm` accepts. */
  predicate Valid(d: FormData) {
    !Blank(d.firstName) && !Blank(d.lastName) && !Blank(d.phone)
    && !Blank(d.email) && MatchesEmailPattern(d.email)
  }

  /**
   * `validateForm`: one message per failing field, built key by key; the form
   * is accepted exactly when no message was recorded.
   */
  method ValidateForm(d: FormData) returns (ok: bool, errors: map<FormKey, string>)
    ensures (FirstName in errors) == Blank(d.firstName)
    ensures FirstName in errors ==> errors[FirstName] == FirstNameRequired
    ensures (LastName in errors) == Blank(d.lastName)
    ensures LastName in errors ==> errors[LastName] == LastNameRequired
    ensures (Phone in errors) == Blank(d.phone)
    ensures Phone in errors ==> errors[Phone] == PhoneRequired
    ensures Blank(d.email) ==> EmailKey in errors && errors[EmailKey] == EmailRequired
    ensures !Blank(d.email) && !MatchesEmailPattern(d.email) ==> EmailKey in errors && errors[EmailKey] == EmailInvalid
    ensures !Blank(d.email) && MatchesEmailPattern(d.email) ==> EmailKey !in errors
    ensures ok <==> errors == map[]
    ensures ok <==> Valid(d)
  {
    errors := map[];
    var blankFirst := TrimsToEmpty(d.firstName);
    if blankFirst {
      errors := errors[FirstName := FirstNameRequired];
    }
    var blankLast := TrimsToEmpty(d.lastName);
    if blankLast {
      errors := errors[LastName := LastNameRequired];
    }
    var blankEmail := TrimsToEmpty(d.email);
    if blankEmail {
      errors := errors[EmailKey := EmailRequired];
    } else if !MatchesEmailPattern(d.email) {
      errors := errors[EmailKey := EmailInvalid];
    }
    var blankPhone := TrimsToEmpty(d.phone);
    if blankPhone {
      errors := errors[Phone := PhoneRequired];
    }
    ok := |errors.Keys| == 0;
    assert ok <==> errors == map[] by {
      if errors != map[] {
        var key :| key in errors;
        assert key in errors.Keys;
      }
    }
  }

  /** The patch `updateContact(contact.id, formData)` applies: the seven form keys. */
  function FormPatch(d: FormData): ContactPatch {
    ContactPatch(Keep, Put(d.firstName), Put(d.lastName), Put(d.email), Put(d.phone),
                 Put(d.category), Put(d.tags), Put(d.notes), Keep, Keep, Keep)
  }

  /** `{ ...formData, isFavorite: false }`. */
  function FormInput(d: FormData): (input: ContactInput)
    ensures !input.isFavorite
  {
    ContactInput(d.firstName, d.lastName, d.email, d.phone, d.category, d.tags, d.notes, false)
  }

  /** Saving an edit takes the form's values and keeps the id, the favourite flag and the creation time. */
  lemma EditKeepsIdentity(c: Contact, d: FormData, now: int)
    ensures var m := MergeContact(c, FormPatch(d), now);
      && m.id == c.id && m.isFavorite == c.isFavorite && m.createdAt == c.createdAt && m.updatedAt == now
      && m.firstName == d.firstName && m.lastName == d.lastName && m.email == d.email
      && m.phone == d.phone && m.category == d.category && m.tags == d.tags && m.notes == d.notes
  {
  }

  // ---------------------------------------------------------------------------
  // The dialog

  class ContactForm {
    /** The `contact` prop: the one being edited, or none for a new contact. */
    const editing: Option<Contact>
    var formData: FormData
    var tagInput: string
    var errors: map<FormKey, string>

    constructor (contact: Option<Contact>)
      ensures editing == contact && formData == InitialFormData(contact)
      ensures tagInput == "" && errors == map[]
    {
      editing := contact;
      formData := InitialFormData(contact);
      tagInput := "";
      errors := map[];
    }

    method SetTagInput(text: string)
      modifies this
      ensures tagInput == text && formData == old(formData) && errors == old(errors)
    {
      tagInput := text;
    }

    /** `handleAddTag`: the shared tag rule applied to the form's tags and the tag input. */
    method HandleAddTag()
      modifies this
      ensures var st := AddTag(TagState(old(formData).tags, old(tagInput)));
        formData == old(formData).(tags := st.tags) && tagInput == st.input
      ensures errors == old(errors)
    {
      var t := Trim(tagInput);
      if t != [] && t !in formData.tags {
        formData := formData.(tags := formData.tags + [t]);
        tagInput := "";
      }
    }

    /** `handleRemoveTag(tag)`: every copy of the tag goes. */
    method HandleRemoveTag(tag: string)
      modifies this
      ensures formData == old(formData).(tags := RemoveTag(old(formData).tags, tag))
      ensures tagInput == old(tagInput) && errors == old(errors)
    {
      formData := formData.(tags := RemoveTag(formData.tags, tag));
    }

    /**
     * `handleSubmit`: a rejected form leaves the store alone and keeps the
     * dialog open; an accepted one updates the edited contact or adds a new,
     * non-favourite one, and the dialog closes.
     */
    method HandleSubmit(store: ContactStore, id: string, now: int) returns (closed: bool)
      modifies this, store
      ensures closed <==> Valid(old(formData))
      ensures !closed ==> store.contacts == old(store.contacts)
      ensures closed && editing.Some? ==>
        store.contacts == UpdatedContacts(old(store.contacts), editing.value.id, FormPatch(old(formData)), now)
      ensures closed && editing.None? ==>
        store.contacts == [NewContact(FormInput(old(formData)), id, now)] + old(store.contacts)
      ensures formData == old(formData) && tagInput == old(tagInput)
      ensures errors == map[] <==> closed
    {
      var ok, newErrors := ValidateForm(formData);
      errors := newErrors;
      if !ok {
        return false;
      }
      if editing.Some? {
        store.UpdateContact(editing.value.id, FormPatch(formData), now);
      } else {
        store.AddContact(FormInput(formData), id, now);
      }
      closed := true;
    }
  }
}
