/**
 * The categories panel (components/categories-panel.tsx): one button per
 * category, in `getCategories` order, with the number of contacts in it; the
 * selected category is highlighted and a click hands its name up.
 */
module CategoriesPanel {
  import opened Collections
  import opened Text
  import opened ContactContext

  /** `getCategoryCount(category)`. */
  function CategoryCount(cs: seq<Contact>, category: string): (r: nat)
    ensures r == |FilterByCategory(cs, category)|
  {
    Count((c: Contact) => c.category == category, cs)
  }

  datatype Entry = Entry(category: string, count: nat, highlighted: bool)

  function Entries(cs: seq<Contact>, selected: string): (r: seq<Entry>)
    ensures |r| == |Categories(cs)|
    ensures forall k :: 0 <= k < |r| ==> r[k] == Entry(Categories(cs)[k], CategoryCount(cs, Categories(cs)[k]), Categories(cs)[k] == selected)
  {
    var cats := Categories(cs);
    seq(|cats|, k requires 0 <= k < |cats| => Entry(cats[k], CategoryCount(cs, cats[k]), cats[k] == selected))
  }

  /** `onClick={() => onSelectCategory(category)}`: the value handed to the parent. */
  function Clicked(entries: seq<Entry>, k: nat): string
    requires k < |entries|
  {
    entries[k].category
  }

  /** Every listed category holds at least one contact. */
  lemma ListedCountsPositive(cs: seq<Contact>, k: nat)
    requires k < |Categories(cs)|
    ensures CategoryCount(cs, Categories(cs)[k]) >= 1
  {
    var x := Categories(cs)[k];
    CategoriesProperties(cs, x);
    var j :| 0 <= j < |cs| && cs[j].category == x;
    assert cs[j] in FilterByCategory(cs, x);
  }

  /** Categories are distinct, so at most one entry is highlighted, and a click yields that entry's name. */
  lemma AtMostOneHighlighted(cs: seq<Contact>, selected: string, i: nat, j: nat)
    requires i < j < |Entries(cs, selected)|
    ensures !(Entries(cs, selected)[i].highlighted && Entries(cs, selected)[j].highlighted)
    ensures Clicked(Entries(cs, selected), i) == Categories(cs)[i]
  {
    CategoriesProperties(cs, selected);
    StrictlySortedIsDistinct(Categories(cs));
  }

  /** How often `x` occurs in `s`. */
  function Occurrences(s: seq<string>, x: string): nat {
    if s == [] then 0 else (if s[0] == x then 1 else 0) + Occurrences(s[1..], x)
  }

  lemma {:induction false} OccurrencesDistinct(s: seq<string>, x: string)
    requires Distinct(s)
    ensures Occurrences(s, x) == if x in s then 1 else 0
  {
    if s != [] {
      OccurrencesDistinct(s[1..], x);
      assert x in s <==> s[0] == x || x in s[1..];
      if s[0] == x {
        assert x !in s[1..] by {
          forall k | 0 <= k < |s[1..]| ensures s[1..][k] != x {
            assert s[1..][k] == s[k + 1];
          }
        }
      }
    }
  }

  /** The counts shown for the categories `cats`, added up. */
  function SumCounts(cats: seq<string>, cs: seq<Contact>): nat {
    if cats == [] then 0 else CategoryCount(cs, cats[0]) + SumCounts(cats[1..], cs)
  }

  lemma {:induction false} SumCountsUnfold(cats: seq<string>, cs: seq<Contact>)
    requires cs != []
    ensures SumCounts(cats, cs) == SumCounts(cats, cs[1..]) + Occurrences(cats, cs[0].category)
  {
    if cats != [] {
      SumCountsUnfold(cats[1..], cs);
      CountUnfold((c: Contact) => c.category == cats[0], cs);
    }
  }

  /** Over a duplicate-free list covering every contact's category, the counts add up to the contacts. */
  lemma {:induction false} SumCountsTotal(cats: seq<string>, cs: seq<Contact>)
    requires Distinct(cats)
    requires forall k :: 0 <= k < |cs| ==> cs[k].category in cats
    ensures SumCounts(cats, cs) == |cs|
  {
    if cs == [] {
      SumCountsEmpty(cats);
    } else {
      SumCountsUnfold(cats, cs);
      OccurrencesDistinct(cats, cs[0].category);
      assert forall k :: 0 <= k < |cs[1..]| ==> cs[1..][k] == cs[k + 1];
      SumCountsTotal(cats, cs[1..]);
    }
  }

  lemma {:induction false} SumCountsEmpty(cats: seq<string>)
    ensures SumCounts(cats, []) == 0
  {
    if cats != [] {
      SumCountsEmpty(cats[1..]);
    }
  }

  /** The panel's counts add up to the number of contacts. */
  lemma CountsSumToTotal(cs: seq<Contact>)
    ensures SumCounts(Categories(cs), cs) == |cs|
  {
    StrictlySortedIsDistinct(Categories(cs));
    forall k | 0 <= k < |cs| ensures cs[k].category in Categories(cs) {
      CategoriesProperties(cs, cs[k].category);
    }
    SumCountsTotal(Categories(cs), cs);
  }
}
