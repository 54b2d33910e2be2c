/**
 * The resource list (components/resource-list.tsx): the search text, the
 * type filter and the status and provider check lists, the four-way
 * filter over the store's resources, the active-filter badge count and the
 * handlers that change the filters.
 */
module ResourceList {
  import opened Wrappers
  import opened Collections
  import opened Text
  import opened ResourceContext

  const AllTypes := "all"

  /** The four filters the list applies. */
  datatype Criteria = Criteria(search: string, typeFilter: string, statuses: seq<ResourceStatus>, providers: seq<string>)

  /** The lower-cased search text occurs in the lower-cased name or in some lower-cased tag. */
  predicate MatchesSearch(r: Resource, search: string) {
    Contains(ToLower(r.name), ToLower(search)) ||
    exists k | 0 <= k < |r.tags| :: Contains(ToLower(r.tags[k]), ToLower(search))
  }

  /** The predicate `resources.filter` applies: all four checks must hold. */
  predicate Matches(r: Resource, c: Criteria) {
    && MatchesSearch(r, c.search)
    && (c.typeFilter == AllTypes || r.resourceType.Tag() == c.typeFilter)
    && (|c.statuses| == 0 || r.status in c.statuses)
    && (|c.providers| == 0 || r.provider.Tag() in c.providers)
  }

  /** `filteredResources`: the matching resources, in store order. */
  function Filtered(rs: seq<Resource>, c: Criteria): (r: seq<Resource>)
    ensures IsSubseq(r, rs)
    ensures |r| <= |rs|
    ensures forall x :: x in r <==> x in rs && Matches(x, c)
  {
    var r := Filter((x: Resource) => Matches(x, c), rs);
    SubseqLength(r, rs);
    r
  }

  /** The criteria with no search text and no filter. */
  const NoCriteria := Criteria("", AllTypes, [], [])

  /** With no search text and no filter, every resource is shown, in order. */
  lemma NoCriteriaShowsAll(rs: seq<Resource>)
    ensures Filtered(rs, NoCriteria) == rs
  {
    forall k | 0 <= k < |rs| ensures Matches(rs[k], NoCriteria) {
      ContainsEmpty(ToLower(rs[k].name));
    }
    FilterAll((x: Resource) => Matches(x, NoCriteria), rs);
  }

  /** Letters in the search text match either case: lower-casing the search changes nothing. */
  lemma SearchIgnoresCase(r: Resource, c: Criteria)
    ensures Matches(r, c) <==> Matches(r, c.(search := ToLower(c.search)))
  {
    LowerIdempotent(c.search);
  }

  /** A type filter other than "all" keeps only resources of that type, and an unknown type keeps none. */
  lemma TypeFilterSelects(rs: seq<Resource>, c: Criteria, x: Resource)
    requires c.typeFilter != AllTypes && x in Filtered(rs, c)
    ensures x.resourceType.Tag() == c.typeFilter
  {
  }

  /** `activeFilterCount`: one for a type filter, plus one per checked status and provider. */
  function ActiveFilterCount(c: Criteria): nat {
    (if c.typeFilter != AllTypes then 1 else 0) + |c.statuses| + |c.providers|
  }

  /** No active filter means only the search text decides what is shown. */
  lemma NoActiveFilters(rs: seq<Resource>, c: Criteria)
    ensures ActiveFilterCount(c) == 0 <==> c.typeFilter == AllTypes && c.statuses == [] && c.providers == []
    ensures ActiveFilterCount(c) == 0 ==>
      forall x :: x in Filtered(rs, c) <==> x in rs && MatchesSearch(x, c.search)
  {
  }

  /** `checked ? [...list, x] : list.filter((y) => y !== x)`. */
  function Checked<T(==,!new)>(list: seq<T>, x: T, checked: bool): (r: seq<T>)
    ensures checked ==> r == list + [x]
    ensures !checked ==> x !in r && IsSubseq(r, list)
    ensures forall y :: y != x ==> multiset(r)[y] == multiset(list)[y]
  {
    if checked then list + [x] else RemoveAll(list, x)
  }

  /** Checking an unchecked entry and unchecking it again restores the list. */
  lemma CheckThenUncheck<T(!new)>(list: seq<T>, x: T)
    requires x !in list
    ensures Checked(Checked(list, x, true), x, false) == list
  {
    RemoveAllSnoc(list, x);
    RemoveAllAbsent(list, x);
  }

  /** `initialTypeFilter || "all"`: a missing or empty type means all types. */
  function InitialTypeFilter(initial: Option<string>): (t: string)
    ensures t == AllTypes <==> initial.None? || initial.value in {"", AllTypes}
    ensures t != AllTypes ==> t == initial.value
  {
    if initial.None? || initial.value == "" then AllTypes else initial.value
  }

  /** The list's filter state. */
  class ResourceListState {
    var search: string
    var typeFilter: string
    var statusFilters: seq<ResourceStatus>
    var providerFilters: seq<string>

    function Current(): Criteria
      reads this
    {
      Criteria(search, typeFilter, statusFilters, providerFilters)
    }

    constructor (initialTypeFilter: Option<string>)
      ensures search == "" && statusFilters == [] && providerFilters == []
      ensures typeFilter == InitialTypeFilter(initialTypeFilter)
    {
      search := "";
      typeFilter := InitialTypeFilter(initialTypeFilter);
      statusFilters := [];
      providerFilters := [];
    }

    method SetSearch(s: string)
      modifies this
      ensures Current() == old(Current()).(search := s)
    {
      search := s;
    }

    /** The type select, and the type chip's remove button with `"all"`. */
    method SetTypeFilter(t: string)
      modifies this
      ensures Current() == old(Current()).(typeFilter := t)
    {
      typeFilter := t;
    }

    /** A status checkbox: checking appends the status, unchecking removes every occurrence. */
    method SetStatusChecked(status: ResourceStatus, checked: bool)
      modifies this
      ensures Current() == old(Current()).(statuses := Checked(old(statusFilters), status, checked))
    {
      statusFilters := Checked(statusFilters, status, checked);
    }

    /** A provider checkbox, in the same way. */
    method SetProviderChecked(provider: string, checked: bool)
      modifies this
      ensures Current() == old(Current()).(providers := Checked(old(providerFilters), provider, checked))
    {
      providerFilters := Checked(providerFilters, provider, checked);
    }

    /** A status chip's remove button. */
    method RemoveStatusChip(status: ResourceStatus)
      modifies this
      ensures Current() == old(Current()).(statuses := RemoveAll(old(statusFilters), status))
    {
      statusFilters := RemoveAll(statusFilters, status);
    }

    /** A provider chip's remove button. */
    method RemoveProviderChip(provider: string)
      modifies this
      ensures Current() == old(Current()).(providers := RemoveAll(old(providerFilters), provider))
    {
      providerFilters := RemoveAll(providerFilters, provider);
    }

    /** `clearFilters`: every filter is reset and the search text is kept. */
    method ClearFilters()
      modifies this
      ensures Current() == Criteria(old(search), AllTypes, [], [])
      ensures ActiveFilterCount(Current()) == 0
    {
      typeFilter := AllTypes;
      statusFilters := [];
      providerFilters := [];
    }
  }

  /** After clearing, the list shows exactly the resources the search text alone selects. */
  lemma ClearedShowsSearchMatches(rs: seq<Resource>, search: string, x: Resource)
    ensures x in Filtered(rs, Criteria(search, AllTypes, [], [])) <==> x in rs && MatchesSearch(x, search)
  {
  }

  /** "Showing X of Y resources". */
  function ShowingCounts(rs: seq<Resource>, c: Criteria): (r: (nat, nat))
    ensures r.0 <= r.1 == |rs|
  {
    (|Filtered(rs, c)|, |rs|)
  }
}
