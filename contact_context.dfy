/**
 * The contact store (lib/contact-context.tsx): the contact record, the three
 * built-in contacts, the store object whose operations replace its list, and
 * the queries over the list. Ids and timestamps are parameters.
 */
module ContactContext {
  import opened Wrappers
  import opened Collections
  import opened Text

  /** Dates are opaque instants, here milliseconds since the epoch. */
  datatype Contact = Contact(
    id: string,
    firstName: string,
    lastName: string,
    email: string,
    phone: string,
    category: string,
    tags: seq<string>,
    notes: string,
    isFavorite: bool,
    createdAt: int,
    updatedAt: int)

  /** `Omit<Contact, 'id' | 'createdAt' | 'updatedAt'>`. */
  datatype ContactInput = ContactInput(
    firstName: string,
    lastName: string,
    email: string,
    phone: string,
    category: string,
    tags: seq<string>,
    notes: string,
    isFavorite: bool)

  /** `Partial<Contact>`. */
  datatype ContactPatch = ContactPatch(
    id: Upd<string>,
    firstName: Upd<string>,
    lastName: Upd<string>,
    email: Upd<string>,
    phone: Upd<string>,
    category: Upd<string>,
    tags: Upd<seq<string>>,
    notes: Upd<string>,
    isFavorite: Upd<bool>,
    createdAt: Upd<int>,
    updatedAt: Upd<int>)

  /** `INITIAL_CONTACTS`. */
  function InitialContacts(): seq<Contact> {
    [ Contact("1", "Sarah", "Johnson", "sarah.johnson@example.com", "+1 (555) 123-4567", "Work",
              ["developer", "team-lead"], "Senior Developer at Tech Corp", true, 1705276800000, 1705276800000),
      Contact("2", "Michael", "Chen", "michael.chen@example.com", "+1 (555) 234-5678", "Work",
              ["designer", "creative"], "UI/UX Designer", true, 1705708800000, 1705708800000),
      Contact("3", "Emily", "Rodriguez", "emily.r@example.com", "+1 (555) 345-6789", "Personal",
              ["friend", "yoga"], "College friend, fitness enthusiast", false, 1706745600000, 1706745600000) ]
  }

  /** `{ ...contact, id, createdAt: now, updatedAt: now }`. */
  function NewContact(input: ContactInput, id: string, now: int): (c: Contact)
    ensures c.id == id && c.createdAt == now && c.updatedAt == now
    ensures c.firstName == input.firstName && c.lastName == input.lastName && c.email == input.email
    ensures c.phone == input.phone && c.category == input.category && c.tags == input.tags
    ensures c.notes == input.notes && c.isFavorite == input.isFavorite
  {
    Contact(id, input.firstName, input.lastName, input.email, input.phone, input.category,
            input.tags, input.notes, input.isFavorite, now, now)
  }

  /** `{ ...contact, ...updates, updatedAt: now }`: the stamp wins over any patched one. */
  function MergeContact(c: Contact, p: ContactPatch, now: int): Contact {
    Contact(p.id.Over(c.id), p.firstName.Over(c.firstName), p.lastName.Over(c.lastName),
            p.email.Over(c.email), p.phone.Over(c.phone), p.category.Over(c.category),
            p.tags.Over(c.tags), p.notes.Over(c.notes), p.isFavorite.Over(c.isFavorite),
            p.createdAt.Over(c.createdAt), now)
  }

  /** An update changes exactly the patched keys and the modification time. */
  lemma MergeContactKeys(c: Contact, p: ContactPatch, now: int)
    ensures var m := MergeContact(c, p, now);
      && m.updatedAt == now
      && (p.id.Keep? ==> m.id == c.id) && (p.id.Put? ==> m.id == p.id.value)
      && (p.isFavorite.Keep? ==> m.isFavorite == c.isFavorite)
      && (p.tags.Keep? ==> m.tags == c.tags) && (p.tags.Put? ==> m.tags == p.tags.value)
      && (p == ContactPatch(Keep, Keep, Keep, Keep, Keep, Keep, Keep, Keep, Keep, Keep, Keep) ==>
            m == c.(updatedAt := now))
  {
  }

  // ---------------------------------------------------------------------------
  // List updates

  /** `prev.map((c) => (c.id === id ? merged : c))`. */
  function UpdatedContacts(cs: seq<Contact>, id: string, p: ContactPatch, now: int): (r: seq<Contact>)
    ensures |r| == |cs|
    ensures forall k :: 0 <= k < |cs| ==> r[k] == if cs[k].id == id then MergeContact(cs[k], p, now) else cs[k]
  {
    seq(|cs|, k requires 0 <= k < |cs| => if cs[k].id == id then MergeContact(cs[k], p, now) else cs[k])
  }

  /** `prev.filter((c) => c.id !== id)`. */
  function DeletedContacts(cs: seq<Contact>, id: string): seq<Contact> {
    Filter((c: Contact) => c.id != id, cs)
  }

  /** `prev.map((c) => (c.id === id ? { ...c, isFavorite: !c.isFavorite } : c))`. */
  function Toggled(cs: seq<Contact>, id: string): (r: seq<Contact>)
    ensures |r| == |cs|
    ensures forall k :: 0 <= k < |cs| ==> r[k] == if cs[k].id == id then cs[k].(isFavorite := !cs[k].isFavorite) else cs[k]
  {
    seq(|cs|, k requires 0 <= k < |cs| => if cs[k].id == id then cs[k].(isFavorite := !cs[k].isFavorite) else cs[k])
  }

  /** Toggling twice restores the list. */
  lemma ToggleTwice(cs: seq<Contact>, id: string)
    ensures Toggled(Toggled(cs, id), id) == cs
  {
    var t := Toggled(Toggled(cs, id), id);
    forall k | 0 <= k < |cs| ensures t[k] == cs[k] {
    }
  }

  /** Deleting removes every contact with the id and keeps the others, in order. */
  lemma DeleteProperties(cs: seq<Contact>, id: string)
    ensures var r := DeletedContacts(cs, id);
      && IsSubseq(r, cs)
      && (forall k :: 0 <= k < |r| ==> r[k].id != id)
      && (forall c :: c in cs && c.id != id ==> c in r)
      && |r| <= |cs|
  {
    FilterLength((c: Contact) => c.id != id, cs);
  }

  /** Deleting an id no contact has changes nothing. */
  lemma DeleteAbsent(cs: seq<Contact>, id: string)
    requires forall k :: 0 <= k < |cs| ==> cs[k].id != id
    ensures DeletedContacts(cs, id) == cs
  {
    FilterAll((c: Contact) => c.id != id, cs);
  }

  // ---------------------------------------------------------------------------
  // Queries

  /** The test `searchContacts` applies: case-insensitive on all but the phone number. */
  predicate SearchMatches(c: Contact, query: string) {
    var q := ToLower(query);
    Contains(ToLower(c.firstName), q) || Contains(ToLower(c.lastName), q)
    || Contains(ToLower(c.email), q) || Contains(c.phone, query)
    || Contains(ToLower(c.notes), q)
  }

  function Search(cs: seq<Contact>, query: string): (r: seq<Contact>)
    ensures IsSubseq(r, cs)
    ensures forall c :: c in r <==> c in cs && SearchMatches(c, query)
  {
    Filter((c: Contact) => SearchMatches(c, query), cs)
  }

  /** The empty query finds every contact. */
  lemma SearchEmptyQuery(cs: seq<Contact>)
    ensures Search(cs, "") == cs
  {
    forall k | 0 <= k < |cs| ensures SearchMatches(cs[k], "") {
      ContainsEmpty(ToLower(cs[k].firstName));
    }
    FilterAll((c: Contact) => SearchMatches(c, ""), cs);
  }

  /** Letters in the query match either case in the names, email and notes. */
  lemma SearchIgnoresCase(c: Contact, query: string)
    requires Contains(ToLower(c.firstName), ToLower(query))
    ensures SearchMatches(c, query) && SearchMatches(c, ToLower(query))
  {
    LowerIdempotent(query);
  }

  function FilterByCategory(cs: seq<Contact>, category: string): (r: seq<Contact>)
    ensures IsSubseq(r, cs)
    ensures forall c :: c in r <==> c in cs && c.category == category
  {
    Filter((c: Contact) => c.category == category, cs)
  }

  function FilterByTag(cs: seq<Contact>, tag: string): (r: seq<Contact>)
    ensures IsSubseq(r, cs)
    ensures forall c :: c in r <==> c in cs && tag in c.tags
  {
    Filter((c: Contact) => tag in c.tags, cs)
  }

  function CategoryList(cs: seq<Contact>): seq<string> {
    Map((c: Contact) => c.category, cs)
  }

  /** `Array.from(new Set(contacts.map((c) => c.category))).sort()`. */
  function Categories(cs: seq<Contact>): seq<string> {
    SortedDistinct(CategoryList(cs))
  }

  /** Each category present is listed exactly once, ascending. */
  lemma CategoriesProperties(cs: seq<Contact>, x: string)
    ensures StrictlySorted(Categories(cs))
    ensures x in Categories(cs) <==> exists k :: 0 <= k < |cs| && cs[k].category == x
  {
    var l := CategoryList(cs);
    if x in l {
      var k :| 0 <= k < |l| && l[k] == x;
      assert cs[k].category == x;
    }
  }

  /** Every contact's tags, contact by contact. */
  function TagList(cs: seq<Contact>): seq<string> {
    if cs == [] then [] else TagList(cs[..|cs| - 1]) + cs[|cs| - 1].tags
  }

  lemma {:induction false} TagListMembership(cs: seq<Contact>, x: string)
    ensures x in TagList(cs) <==> exists k :: 0 <= k < |cs| && x in cs[k].tags
  {
    if cs != [] {
      var init := cs[..|cs| - 1];
      TagListMembership(init, x);
      if exists k :: 0 <= k < |init| && x in init[k].tags {
        var k :| 0 <= k < |init| && x in init[k].tags;
        assert x in cs[k].tags;
      }
      if exists k :: 0 <= k < |cs| && x in cs[k].tags {
        var k :| 0 <= k < |cs| && x in cs[k].tags;
        if k < |cs| - 1 {
          assert x in init[k].tags;
        }
      }
    }
  }

  /** The tags `getAllTags` lists: each tag of any contact exactly once, ascending. */
  function AllTags(cs: seq<Contact>): seq<string> {
    SortedDistinct(TagList(cs))
  }

  lemma AllTagsProperties(cs: seq<Contact>, x: string)
    ensures StrictlySorted(AllTags(cs))
    ensures x in AllTags(cs) <==> exists k :: 0 <= k < |cs| && x in cs[k].tags
  {
    TagListMembership(cs, x);
  }

  /**
   * `tags.forEach((tag) => set.add(tag))` on a set holding the strings of
   * `before`: the set's insertion order afterwards.
   */
  method AddToSet(seen: seq<string>, ghost before: seq<string>, ts: seq<string>) returns (r: seq<string>)
    requires seen == Dedup(before)
    ensures r == Dedup(before + ts)
  {
    r := seen;
    assert before + ts[..0] == before;
    for j := 0 to |ts|
      invariant r == Dedup(before + ts[..j])
    {
      assert before + ts[..j + 1] == (before + ts[..j]) + [ts[j]];
      DedupSnoc(before + ts[..j], ts[j]);
      if ts[j] !in r {
        r := r + [ts[j]];
      }
    }
    assert ts[..|ts|] == ts;
  }

  /** The built-in contacts: two favourites, the categories Personal and Work. */
  lemma InitialContactsShape()
    ensures var cs := InitialContacts();
      && |cs| == 3
      && cs[0].isFavorite && cs[1].isFavorite && !cs[2].isFavorite
      && cs[0].category == "Work" && cs[1].category == "Work" && cs[2].category == "Personal"
      && forall i, j :: 0 <= i < j < 3 ==> cs[i].id != cs[j].id
  {
  }

  // ---------------------------------------------------------------------------
  // The store

  /** The provider's `contacts` state; each operation replaces the list. */
  class ContactStore {
    var contacts: seq<Contact>

    constructor ()
      ensures contacts == InitialContacts()
    {
      contacts := InitialContacts();
    }

    /** The new contact goes first; the others follow unchanged, in order. */
    method AddContact(input: ContactInput, id: string, now: int)
      modifies this
      ensures contacts == [NewContact(input, id, now)] + old(contacts)
    {
      contacts := [NewContact(input, id, now)] + contacts;
    }

    method UpdateContact(id: string, p: ContactPatch, now: int)
      modifies this
      ensures contacts == UpdatedContacts(old(contacts), id, p, now)
    {
      contacts := UpdatedContacts(contacts, id, p, now);
    }

    method DeleteContact(id: string)
      modifies this
      ensures contacts == DeletedContacts(old(contacts), id)
    {
      contacts := DeletedContacts(contacts, id);
    }

    method ToggleFavorite(id: string)
      modifies this
      ensures contacts == Toggled(old(contacts), id)
    {
      contacts := Toggled(contacts, id);
    }

    /**
     * `getAllTags`: every contact's tags are added to an insertion-ordered
     * set, which is then sorted.
     */
    method GetAllTags() returns (r: seq<string>)
      ensures r == AllTags(contacts)
      ensures StrictlySorted(r)
    {
      var seen: seq<string> := [];
      for i := 0 to |contacts|
        invariant seen == Dedup(TagList(contacts[..i]))
      {
        assert TagList(contacts[..i + 1]) == TagList(contacts[..i]) + contacts[i].tags by {
          assert contacts[..i + 1][..i] == contacts[..i];
        }
        seen := AddToSet(seen, TagList(contacts[..i]), contacts[i].tags);
      }
      assert contacts[..|contacts|] == contacts;
      r := Sort(seen);
    }
  }
}
