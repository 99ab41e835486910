/** The advanced search panel: seven text filters kept as component state,
    turned into the query string of the orphanage listing route. */
module AdvancedSearch {
  import opened Seqs
  import opened Http
  import opened OrphanagesRoute

  datatype FilterKey = SearchKey | LocationKey | NeedsKey | VerifiedKey | HasEventsKey | SortByKey | SortOrderKey

  function KeyName(k: FilterKey): string {
    match k
    case SearchKey => "search"
    case LocationKey => "location"
    case NeedsKey => "needs"
    case VerifiedKey => "verified"
    case HasEventsKey => "hasEvents"
    case SortByKey => "sortBy"
    case SortOrderKey => "sortOrder"
  }

  /** A query string: its pairs in the order they were appended. */
  type QueryString = seq<(string, string)>

  /** `searchParams.get(key)`: the first value appended under key. */
  function Get(ps: QueryString, key: string): (r: Option<string>)
    ensures r.Some? <==> exists i :: 0 <= i < |ps| && ps[i].0 == key
    ensures r.Some? ==> exists i :: 0 <= i < |ps| && ps[i] == (key, r.value) &&
                                    forall j :: 0 <= j < i ==> ps[j].0 != key
  {
    if ps == [] then None
    else if ps[0].0 == key then
      assert ps[0] == (key, ps[0].1);
      Some(ps[0].1)
    else
      var r := Get(ps[1..], key);
      if r.Some? then
        var i :| 0 <= i < |ps[1..]| && ps[1..][i] == (key, r.value) && forall j :: 0 <= j < i ==> ps[1..][j].0 != key;
        assert ps[i + 1] == (key, r.value);
        r
      else
        assert forall i :: 1 <= i < |ps| ==> ps[i] == ps[1..][i - 1];
        r
  }

  lemma {:induction false} GetAppend(a: QueryString, b: QueryString, key: string)
    requires forall i :: 0 <= i < |a| ==> a[i].0 != key
    ensures Get(a + b, key) == Get(b, key)
  {
    if a == [] {
      assert a + b == b;
    } else {
      assert (a + b)[1..] == a[1..] + b;
      GetAppend(a[1..], b, key);
    }
  }

  class SearchForm {
    var search: string
    var location: string
    var needs: string
    var verified: string
    var hasEvents: string
    var sortBy: string
    var sortOrder: string
    /** The last listing handed to `onResults`. */
    var results: Option<Listing>
    var isSearching: bool

    function Value(k: FilterKey): string
      reads this
    {
      match k
      case SearchKey => search
      case LocationKey => location
      case NeedsKey => needs
      case VerifiedKey => verified
      case HasEventsKey => hasEvents
      case SortByKey => sortBy
      case SortOrderKey => sortOrder
    }

    /** The filters as `Object.entries` lists them: in declaration order. */
    function Entries(): (r: QueryString)
      reads this
      ensures |r| == 7
      ensures forall k :: (KeyName(k), Value(k)) in r
    {
      [("search", search), ("location", location), ("needs", needs), ("verified", verified),
       ("hasEvents", hasEvents), ("sortBy", sortBy), ("sortOrder", sortOrder)]
    }

    /** The initial filters, which `clearFilters` restores. */
    predicate IsCleared()
      reads this
    {
      search == "" && location == "" && needs == "" && verified == "" && hasEvents == "" &&
      sortBy == "name" && sortOrder == "asc"
    }

    constructor ()
      ensures IsCleared() && results.None? && !isSearching
    {
      search, location, needs, verified, hasEvents := "", "", "", "", "";
      sortBy, sortOrder := "name", "asc";
      results, isSearching := None, false;
    }

    /** `updateFilter(key, value)`: only that filter changes. */
    method UpdateFilter(k: FilterKey, value: string)
      modifies this
      ensures Value(k) == value
      ensures forall k' :: k' != k ==> Value(k') == old(Value(k'))
      ensures results == old(results) && isSearching == old(isSearching)
    {
      match k
      case SearchKey => search := value;
      case LocationKey => location := value;
      case NeedsKey => needs := value;
      case VerifiedKey => verified := value;
      case HasEventsKey => hasEvents := value;
      case SortByKey => sortBy := value;
      case SortOrderKey => sortOrder := value;
    }

    /** `clearFilters`. */
    method ClearFilters()
      modifies this
      ensures IsCleared()
      ensures results == old(results) && isSearching == old(isSearching)
    {
      search, location, needs, verified, hasEvents := "", "", "", "", "";
      sortBy, sortOrder := "name", "asc";
    }

    /** `hasActiveFilters` as written: some filter is neither empty nor one
        of the texts "name" and "asc", whichever field holds it. */
    predicate HasActiveFiltersAsWritten()
      reads this
    {
      exists k :: Value(k) != "" && Value(k) != "name" && Value(k) != "asc"
    }

    /** Whether some filter differs from its initial value: what the clear
        button is there for. */
    predicate HasActiveFilters()
      reads this
    {
      exists k :: Value(k) != InitialValue(k)
    }

    /** The query string of `performSearch`: the non-empty filters in order,
        then the two include flags. */
    method BuildParams() returns (ps: QueryString)
      ensures ps == Filter(Entries(), NonEmptyValue()) + IncludeFlags
    {
      var entries := Entries();
      ps := [];
      var i := 0;
      while i < |entries|
        invariant 0 <= i <= |entries|
        invariant ps == Filter(entries[..i], NonEmptyValue())
      {
        FilterAppend(entries[..i], [entries[i]], NonEmptyValue());
        assert entries[..i + 1] == entries[..i] + [entries[i]];
        if entries[i].1 != "" {
          ps := ps + [entries[i]];
        }
        i := i + 1;
      }
      assert entries[..i] == entries;
      ps := ps + IncludeFlags;
    }

    /** The end of `performSearch`: the listing reaches `onResults` only when
        the route answered with success. */
    method FinishSearch(response: Response<Listing>)
      modifies this
      ensures response.Ok? ==> results == Some(response.value)
      ensures response.Err? ==> results == old(results)
      ensures !isSearching
      ensures forall k :: Value(k) == old(Value(k))
    {
      if response.Ok? {
        results := Some(response.value);
      }
      isSearching := false;
    }
  }

  function InitialValue(k: FilterKey): string {
    match k
    case SortByKey => "name"
    case SortOrderKey => "asc"
    case _ => ""
  }

  /** `if (value) params.append(key, value)`: the pairs whose value is not
      empty. */
  function NonEmptyValue(): ((string, string)) -> bool {
    (e: (string, string)) => e.1 != ""
  }

  /** The two flags `performSearch` appends after the filters. */
  const IncludeFlags: QueryString := [("includeNeeds", "true"), ("includeCoordinates", "true")]

  /** The listing route reads from the query string exactly the filters of
      the form: an empty filter reaches it as absent, and needs are always
      included. */
  lemma ParamsReachRoute(entries: QueryString, ps: QueryString, k: FilterKey, value: string)
    requires |entries| == 7 && forall i :: 0 <= i < 7 ==> entries[i].0 != "includeNeeds"
    requires exists i :: 0 <= i < 7 && entries[i] == (KeyName(k), value) && forall j :: 0 <= j < 7 && j != i ==> entries[j].0 != KeyName(k)
    requires ps == Filter(entries, NonEmptyValue()) + IncludeFlags
    ensures Get(ps, KeyName(k)) == if value == "" then None else Some(value)
    ensures Get(ps, "includeNeeds") == Some("true")
  {
    var f := Filter(entries, NonEmptyValue());
    assert forall i :: 0 <= i < |f| ==> f[i].0 != "includeNeeds";
    GetAppend(f, IncludeFlags, "includeNeeds");
    var i :| 0 <= i < 7 && entries[i] == (KeyName(k), value) && forall j :: 0 <= j < 7 && j != i ==> entries[j].0 != KeyName(k);
    if value == "" {
      EmptyFilterAbsent(entries, f, k, i);
    } else {
      FilterPresent(entries, f, k, value, i);
    }
  }

  lemma EmptyFilterAbsent(entries: QueryString, f: QueryString, k: FilterKey, i: nat)
    requires i < |entries| && entries[i] == (KeyName(k), "")
    requires forall j :: 0 <= j < |entries| && j != i ==> entries[j].0 != KeyName(k)
    requires f == Filter(entries, NonEmptyValue())
    ensures Get(f + IncludeFlags, KeyName(k)) == None
  {
    forall m | 0 <= m < |f| ensures f[m].0 != KeyName(k) {
      assert f[m] in entries && f[m].1 != "";
    }
    assert KeyName(k) != "includeNeeds" && KeyName(k) != "includeCoordinates";
    GetAppend(f, IncludeFlags, KeyName(k));
  }

  lemma FilterPresent(entries: QueryString, f: QueryString, k: FilterKey, value: string, i: nat)
    requires i < |entries| && entries[i] == (KeyName(k), value) && value != ""
    requires forall j :: 0 <= j < |entries| && j != i ==> entries[j].0 != KeyName(k)
    requires f == Filter(entries, NonEmptyValue())
    ensures Get(f + IncludeFlags, KeyName(k)) == Some(value)
  {
    assert NonEmptyValue()(entries[i]);
    assert entries[i] in f;
    forall m | 0 <= m < |f| && f[m].0 == KeyName(k) ensures f[m] == entries[i] {
      assert f[m] in entries;
    }
    FilterKeyUnique(f, KeyName(k), value);
    GetPrefix(f, IncludeFlags, KeyName(k), value);
  }

  lemma FilterKeyUnique(f: QueryString, key: string, value: string)
    requires (key, value) in f
    requires forall m :: 0 <= m < |f| && f[m].0 == key ==> f[m] == (key, value)
    ensures Get(f, key) == Some(value)
  {
  }

  lemma {:induction false} GetPrefix(a: QueryString, b: QueryString, key: string, value: string)
    requires Get(a, key) == Some(value)
    ensures Get(a + b, key) == Some(value)
  {
    if a[0].0 != key {
      assert (a + b)[1..] == a[1..] + b;
      GetPrefix(a[1..], b, key, value);
    }
  }

  /** The filters are active exactly when they differ from the cleared
      form, so clearing always hides the clear button. */
  lemma ActiveIffNotCleared(form: SearchForm)
    ensures form.HasActiveFilters() <==> !form.IsCleared()
  {
    assert form.Value(SearchKey) == form.search && form.Value(LocationKey) == form.location;
    assert form.Value(NeedsKey) == form.needs && form.Value(VerifiedKey) == form.verified;
    assert form.Value(HasEventsKey) == form.hasEvents && form.Value(SortByKey) == form.sortBy;
    assert form.Value(SortOrderKey) == form.sortOrder;
  }

  /** The quirk of `hasActiveFilters`: a search for the word "name" does not
      count as a filter, so the clear button stays hidden. */
  lemma SearchForNameNotActive(form: SearchForm)
    requires form.search == "name" && form.location == "" && form.needs == "" && form.verified == "" &&
             form.hasEvents == "" && form.sortBy == "name" && form.sortOrder == "asc"
    ensures !form.HasActiveFiltersAsWritten() && form.HasActiveFilters()
  {
    assert form.Value(SearchKey) != InitialValue(SearchKey);
  }
}
