/**
 * The favourites section (components/favorites-section.tsx): the favourite
 * contacts in store order, each drawn as a grid card, under a heading with
 * their number; nothing at all when there is none.
 */
module FavoritesSection {
  import opened Wrappers
  import opened Collections
  import opened ContactContext
  import opened ContactList

  function Favorites(cs: seq<Contact>): (r: seq<Contact>)
    ensures IsSubseq(r, cs)
    ensures forall c :: c in r <==> c in cs && c.isFavorite
  {
    Filter((c: Contact) => c.isFavorite, cs)
  }

  /** What the section renders: a heading count and the cards with their layout. */
  datatype Section = Section(count: nat, cards: seq<(Contact, ViewMode)>)

  function FavoritesView(cs: seq<Contact>): Option<Section> {
    var favs := Favorites(cs);
    if |favs| == 0 then None
    else Some(Section(|favs|, seq(|favs|, k requires 0 <= k < |favs| => (favs[k], Grid))))
  }

  /** Nothing is rendered exactly when no contact is a favourite. */
  lemma EmptyWithoutFavorites(cs: seq<Contact>)
    ensures FavoritesView(cs).None? <==> forall k :: 0 <= k < |cs| ==> !cs[k].isFavorite
  {
    if FavoritesView(cs).Some? {
      var f := Favorites(cs)[0];
      assert f in Favorites(cs);
      var k :| 0 <= k < |cs| && cs[k] == f;
    } else {
      forall k | 0 <= k < |cs| ensures !cs[k].isFavorite {
        assert cs[k] in cs;
      }
    }
  }

  /** The heading counts the favourites, and the cards are exactly they, in order, all grid. */
  lemma SectionContents(cs: seq<Contact>)
    requires FavoritesView(cs).Some?
    ensures var s := FavoritesView(cs).value;
      && s.count == |s.cards| == Count((c: Contact) => c.isFavorite, cs)
      && (forall k :: 0 <= k < |s.cards| ==> s.cards[k] == (Favorites(cs)[k], Grid))
  {
  }
}
