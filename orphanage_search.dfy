/** The search box of the orphanage list: a case-insensitive substring match
    over name, description and address, showing the first six matches. */
module OrphanageSearch {
  import opened Text
  import opened Seqs

  datatype Listing = Listing(id: string, name: string, description: string, address: string)

  /** The lower-cased term occurs in the lower-cased name, description or
      address. The term is not trimmed for this test. */
  predicate MatchesTerm(o: Listing, term: string) {
    var t := Lower(term);
    Contains(Lower(o.name), t) || Contains(Lower(o.description), t) || Contains(Lower(o.address), t)
  }

  /** `filteredOrphanages`: nothing for a blank term; otherwise the matches
      in list order, cut to six. */
  function FilteredOrphanages(orphanages: seq<Listing>, searchTerm: string): (r: seq<Listing>)
    ensures IsBlank(searchTerm) ==> r == []
    ensures |r| <= 6
    ensures forall i :: 0 <= i < |r| ==> MatchesTerm(r[i], searchTerm) && r[i] in orphanages
  {
    BlankIffTrimEmpty(searchTerm);
    if Trim(searchTerm) == [] then []
    else
      var p := (o: Listing) => MatchesTerm(o, searchTerm);
      TakeFilter(orphanages, p, 6);
      Take(Filter(orphanages, p), 6)
  }

  /** The results are the first matches in list order: every match before
      the last one shown is shown, and with fewer than six matches all are. */
  lemma ResultsArePrefixOfMatches(orphanages: seq<Listing>, searchTerm: string)
    requires !IsBlank(searchTerm)
    ensures var m := Filter(orphanages, (o: Listing) => MatchesTerm(o, searchTerm));
            var r := FilteredOrphanages(orphanages, searchTerm);
            r == m[..|r|] && (|m| <= 6 ==> r == m) && (|m| > 6 ==> |r| == 6)
  {
    BlankIffTrimEmpty(searchTerm);
  }

  lemma SameLowerSameMatch(o: Listing, a: string, b: string)
    requires Lower(a) == Lower(b)
    ensures MatchesTerm(o, a) == MatchesTerm(o, b)
  {
  }

  /** Lower-casing the term does not change the result. */
  lemma CaseInsensitive(orphanages: seq<Listing>, a: string, b: string)
    requires Lower(a) == Lower(b)
    ensures FilteredOrphanages(orphanages, a) == FilteredOrphanages(orphanages, b)
  {
    LowerKeepsBlank(a);
    LowerKeepsBlank(b);
    if !IsBlank(a) {
      BlankIffTrimEmpty(a);
      BlankIffTrimEmpty(b);
      var pa := (o: Listing) => MatchesTerm(o, a);
      var pb := (o: Listing) => MatchesTerm(o, b);
      forall i | 0 <= i < |orphanages| ensures pa(orphanages[i]) == pb(orphanages[i]) {
        SameLowerSameMatch(orphanages[i], a, b);
      }
      FilterCongruent(orphanages, pa, pb);
    }
  }

  /** `showResults`: the dropdown is open when the term is not blank and the
      input has the focus. */
  function ShowResults(searchTerm: string, isSearchFocused: bool): (r: bool)
    ensures r <==> !IsBlank(searchTerm) && isSearchFocused
  {
    BlankIffTrimEmpty(searchTerm);
    Trim(searchTerm) != [] && isSearchFocused
  }
}
