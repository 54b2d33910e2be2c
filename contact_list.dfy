/**
 * The contact list (components/contact-list.tsx): which contacts it shows
 * for the search box and the category selector, and its "Showing X of Y"
 * footer.
 */
module ContactList {
  import opened Collections
  import opened ContactContext

  /** The `viewMode` state; it is also the layout a contact card is drawn with. */
  datatype ViewMode = Grid | ListLayout

  datatype ListState = ListState(searchQuery: string, selectedCategory: string, viewMode: ViewMode)

  /** The selector value that stands for every category. */
  const AllCategories := "all"

  const InitialListState := ListState("", AllCategories, Grid)

  /** `displayedContacts`: a non-empty query wins, then a chosen category, then everything. */
  function Displayed(cs: seq<Contact>, st: ListState): (r: seq<Contact>)
    ensures IsSubseq(r, cs)
  {
    if st.searchQuery != [] then Search(cs, st.searchQuery)
    else if st.selectedCategory != AllCategories then FilterByCategory(cs, st.selectedCategory)
    else
      SubseqReflexive(cs);
      cs
  }

  /** A contact is shown exactly when it passes the one test the state selects. */
  lemma DisplayedMembers(cs: seq<Contact>, st: ListState, c: Contact)
    ensures c in Displayed(cs, st) <==>
      c in cs
      && (st.searchQuery != [] ==> SearchMatches(c, st.searchQuery))
      && (st.searchQuery == [] && st.selectedCategory != AllCategories ==> c.category == st.selectedCategory)
  {
  }

  /** The start state shows every contact. */
  lemma InitialShowsAll(cs: seq<Contact>)
    ensures Displayed(cs, InitialListState) == cs
  {
  }

  /** While a query is typed the category selector has no effect. */
  lemma QueryIgnoresCategory(cs: seq<Contact>, query: string, a: string, b: string, m: ViewMode)
    requires query != []
    ensures Displayed(cs, ListState(query, a, Grid)) == Displayed(cs, ListState(query, b, m)) == Search(cs, query)
  {
  }

  /** `Showing {displayed} of {total} contacts`. */
  function Footer(cs: seq<Contact>, st: ListState): (r: (nat, nat))
    ensures r.0 <= r.1 == |cs|
  {
    SubseqLength(Displayed(cs, st), cs);
    (|Displayed(cs, st)|, |cs|)
  }
}
