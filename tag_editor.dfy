/**
 * The tag editor shared in shape by the contact dialog
 * (components/contact-form-dialog.tsx) and the resource dialog
 * (components/resource-form.tsx): a list of tags and the text typed for the
 * next one.
 */
module TagEditor {
  import opened Collections
  import opened Text

  datatype TagState = TagState(tags: seq<string>, input: string)

  /** `addTag`: the trimmed input is appended and the input cleared, unless it is blank or already present. */
  function AddTag(st: TagState): TagState {
    var t := Trim(st.input);
    if t != [] && t !in st.tags then TagState(st.tags + [t], "") else st
  }

  /** `removeTag(tag)`: `tags.filter((t) => t !== tag)`. */
  function RemoveTag(tags: seq<string>, tag: string): seq<string> {
    RemoveAll(tags, tag)
  }

  /** A blank or repeated tag changes nothing; a new one is appended and the input cleared. */
  lemma AddTagCases(st: TagState)
    ensures Blank(st.input) ==> AddTag(st) == st
    ensures !Blank(st.input) && Trim(st.input) in st.tags ==> AddTag(st) == st
    ensures !Blank(st.input) && Trim(st.input) !in st.tags ==>
      AddTag(st) == TagState(st.tags + [Trim(st.input)], "")
  {
    TrimEmptyIffBlank(st.input);
  }

  /** Added tags never repeat and never carry outer whitespace. */
  lemma AddTagKeepsDistinct(st: TagState)
    requires Distinct(st.tags)
    ensures Distinct(AddTag(st).tags)
    ensures forall k :: |st.tags| <= k < |AddTag(st).tags| ==>
      AddTag(st).tags[k] != [] && !IsSpace(AddTag(st).tags[k][0])
  {
    var r := AddTag(st).tags;
    var t := Trim(st.input);
    TrimmedHasNoOuterSpace(st.input);
    forall i, j | 0 <= i < j < |r| ensures r[i] != r[j] {
      if j == |st.tags| {
        assert r[i] in st.tags;
      }
    }
  }

  /** Removing a freshly added tag gives back the earlier list. */
  lemma AddThenRemove(st: TagState)
    requires AddTag(st) != st
    ensures RemoveTag(AddTag(st).tags, Trim(st.input)) == st.tags
  {
    var t := Trim(st.input);
    RemoveAllSnoc(st.tags, t);
    RemoveAllAbsent(st.tags, t);
  }

  /** Removing keeps every other tag, in order and as often as before. */
  lemma RemoveTagKeepsOthers(tags: seq<string>, tag: string, other: string)
    requires other != tag
    ensures tag !in RemoveTag(tags, tag)
    ensures IsSubseq(RemoveTag(tags, tag), tags)
    ensures multiset(RemoveTag(tags, tag))[other] == multiset(tags)[other]
  {
  }
}
