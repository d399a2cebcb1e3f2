/** Home/ViewModel/SearchViewModel.swift: game search and the ranking of
    its results. The 500 ms debounce and duplicate suppression in front of
    `performSearch` are scheduler behaviour and are not modelled. */
module Search {
  import opened Common
  import opened GameModels

  /** The match tier of a result for a query: 0 when its lower-cased name
      is the lower-cased query, 1 when it only starts with it, 2 otherwise. */
  function Tier(r: GameSearchResult, query: string): (t: nat)
    ensures t <= 2
    ensures t == 0 <==> Lower(r.name) == Lower(query)
    ensures t <= 1 <==> HasPrefix(Lower(r.name), Lower(query))
  {
    var name, q := Lower(r.name), Lower(query);
    if name == q then 0 else if HasPrefix(name, q) then 1 else 2
  }

  /** The `sorted(by:)` closure of `sortSearchResults`: true when `first`
      is to be placed before `second`. */
  predicate Before(first: GameSearchResult, second: GameSearchResult, query: string)
  {
    var queryLower := Lower(query);
    var firstExactMatch := Lower(first.name) == queryLower;
    var secondExactMatch := Lower(second.name) == queryLower;
    if firstExactMatch != secondExactMatch then firstExactMatch
    else
      var firstStartsWith := HasPrefix(Lower(first.name), queryLower);
      var secondStartsWith := HasPrefix(Lower(second.name), queryLower);
      if firstStartsWith != secondStartsWith then firstStartsWith
      else if first.released.Some? && second.released.Some? then
        LexLess(second.released.value, first.released.value)
      else first.rating > second.rating
  }

  /** Between tiers, the closure follows the tier: a lower tier always goes
      first, a higher tier never does. */
  lemma BeforeFollowsTiers(a: GameSearchResult, b: GameSearchResult, query: string)
    ensures Tier(a, query) < Tier(b, query) ==> Before(a, b, query)
    ensures Tier(a, query) > Tier(b, query) ==> !Before(a, b, query)
  {
  }

  /** An exact (case-insensitive) name match goes before a non-match. */
  lemma ExactMatchFirst(a: GameSearchResult, b: GameSearchResult, query: string)
    requires Lower(a.name) == Lower(query) && Lower(b.name) != Lower(query)
    ensures Before(a, b, query) && !Before(b, a, query)
  {
  }

  /** With the same exact-match status, a name starting with the query goes
      before one that does not. */
  lemma PrefixMatchNext(a: GameSearchResult, b: GameSearchResult, query: string)
    requires (Lower(a.name) == Lower(query)) == (Lower(b.name) == Lower(query))
    requires HasPrefix(Lower(a.name), Lower(query)) && !HasPrefix(Lower(b.name), Lower(query))
    ensures Before(a, b, query) && !Before(b, a, query)
  {
  }

  /** Within one tier: the later release date (as a string) goes first when
      both have one; otherwise the higher rating goes first. */
  lemma WithinTier(a: GameSearchResult, b: GameSearchResult, query: string)
    requires Tier(a, query) == Tier(b, query)
    ensures a.released.Some? && b.released.Some? ==>
      (Before(a, b, query) <==> LexLess(b.released.value, a.released.value))
    ensures a.released.None? || b.released.None? ==>
      (Before(a, b, query) <==> a.rating > b.rating)
  {
  }

  /** The closure is irreflexive and asymmetric. */
  lemma BeforeIrreflexiveAsymmetric(a: GameSearchResult, b: GameSearchResult, query: string)
    ensures !Before(a, a, query)
    ensures Before(a, b, query) ==> !Before(b, a, query)
  {
    if a.released.Some? {
      LexLessIrreflexive(a.released.value);
    }
    if Before(a, b, query) && Tier(a, query) == Tier(b, query) && a.released.Some? && b.released.Some? {
      LexLessAsymmetric(b.released.value, a.released.value);
    }
  }

  /** The closure is not transitive: a result without a release date is
      compared by rating, the others by date, and three results can each go
      before the next in a cycle. */
  lemma BeforeCycle()
    ensures
      var x := GameSearchResult(1, "x", "x", None, 1.0, Some("2021"), []);
      var y := GameSearchResult(2, "y", "y", None, 2.0, None, []);
      var z := GameSearchResult(3, "z", "z", None, 3.0, Some("2020"), []);
      Before(x, z, "") && Before(z, y, "") && Before(y, x, "")
  {
  }

  /** Results ordered by tier: exact matches, then prefix matches, then the
      rest. */
  predicate TierSorted(s: seq<GameSearchResult>, query: string)
  {
    forall i, j :: 0 <= i < j < |s| ==> Tier(s[i], query) <= Tier(s[j], query)
  }

  /** Inserts `x` before the first element it goes before. */
  function Insert(x: GameSearchResult, s: seq<GameSearchResult>, query: string): (r: seq<GameSearchResult>)
    ensures multiset(r) == multiset(s) + multiset{x}
  {
    if s == [] then [x]
    else if Before(x, s[0], query) then [x] + s
    else
      assert s == [s[0]] + s[1..];
      [s[0]] + Insert(x, s[1..], query)
  }

  /** Inserting an element no lower in tier than `t` into a list no lower
      than `t` gives a list no lower than `t`. */
  lemma {:induction false} InsertKeepsLowerBound(x: GameSearchResult, s: seq<GameSearchResult>, query: string, t: nat)
    requires Tier(x, query) >= t
    requires forall k :: 0 <= k < |s| ==> Tier(s[k], query) >= t
    ensures forall k :: 0 <= k < |Insert(x, s, query)| ==> Tier(Insert(x, s, query)[k], query) >= t
  {
    if s != [] && !Before(x, s[0], query) {
      InsertKeepsLowerBound(x, s[1..], query, t);
    }
  }

  /** Insertion keeps a list ordered by tier. */
  lemma {:induction false} InsertTierSorted(x: GameSearchResult, s: seq<GameSearchResult>, query: string)
    requires TierSorted(s, query)
    ensures TierSorted(Insert(x, s, query), query)
  {
    if s != [] {
      BeforeFollowsTiers(x, s[0], query);
      if !Before(x, s[0], query) {
        InsertTierSorted(x, s[1..], query);
        InsertKeepsLowerBound(x, s[1..], query, Tier(s[0], query));
      }
    }
  }

  /** `sortSearchResults`, as an insertion sort with the closure: the
      result holds exactly the input's elements. */
  function SortSearchResults(results: seq<GameSearchResult>, query: string): (r: seq<GameSearchResult>)
    ensures multiset(r) == multiset(results)
  {
    if results == [] then []
    else
      assert results == [results[0]] + results[1..];
      Insert(results[0], SortSearchResults(results[1..], query), query)
  }

  /** The ranked list is ordered by tier. */
  lemma {:induction false} SortTierSorted(results: seq<GameSearchResult>, query: string)
    ensures TierSorted(SortSearchResults(results, query), query)
  {
    if results != [] {
      SortTierSorted(results[1..], query);
      InsertTierSorted(results[0], SortSearchResults(results[1..], query), query);
    }
  }

  /** In the ranked list, every exact match comes before every non-exact
      match, and among names that are not exact matches, those starting with
      the query come first. */
  lemma RankingOrder(results: seq<GameSearchResult>, query: string, i: int, j: int)
    requires 0 <= i < j < |SortSearchResults(results, query)|
    ensures var r := SortSearchResults(results, query);
      (Lower(r[j].name) == Lower(query) ==> Lower(r[i].name) == Lower(query)) &&
      (HasPrefix(Lower(r[j].name), Lower(query)) ==> HasPrefix(Lower(r[i].name), Lower(query)))
  {
    var r := SortSearchResults(results, query);
    SortTierSorted(results, query);
    assert Tier(r[i], query) <= Tier(r[j], query);
  }

  class SearchViewModel {
    var searchResults: seq<GameSearchResult>
    var isLoading: bool
    var errorMessage: Option<string>

    constructor ()
      ensures searchResults == [] && !isLoading && errorMessage == None
    {
      searchResults := [];
      isLoading := false;
      errorMessage := None;
    }

    /** `performSearch`: an empty query clears the results and issues
        nothing; any other query marks loading, clears the error and is
        sent. */
    method PerformSearch(query: string) returns (req: Option<string>)
      modifies this`searchResults, this`isLoading, this`errorMessage
      ensures query == [] ==>
                req == None && searchResults == [] &&
                isLoading == old(isLoading) && errorMessage == old(errorMessage)
      ensures query != [] ==>
                req == Some(query) && isLoading && errorMessage == None &&
                searchResults == old(searchResults)
    {
      if query == [] {
        searchResults := [];
        return None;
      }
      isLoading := true;
      errorMessage := None;
      req := Some(query);
    }

    /** The response to `query` arrived: the results are ranked and replace
        the list; nothing is added or dropped. */
    method ReceiveResults(query: string, response: GameSearchResponse)
      modifies this`searchResults
      ensures searchResults == SortSearchResults(response.results, query)
      ensures multiset(searchResults) == multiset(response.results)
      ensures TierSorted(searchResults, query)
    {
      searchResults := SortSearchResults(response.results, query);
      SortTierSorted(response.results, query);
    }

    /** The search completed: loading ends; a failure is reported. */
    method CompleteSearch(c: Completion)
      modifies this`isLoading, this`errorMessage
      ensures !isLoading
      ensures errorMessage == if c.Failure? then Some(c.description) else old(errorMessage)
    {
      isLoading := false;
      if c.Failure? {
        errorMessage := Some(c.description);
      }
    }
  }

  /** After a search, clearing the query empties the results without a
      request and without touching the flags. */
  method ClearQueryScenario(query: string, response: GameSearchResponse)
    returns (first: Option<string>, ranked: seq<GameSearchResult>, cleared: Option<string>,
             results: seq<GameSearchResult>, loading: bool)
    requires query != []
    ensures first == Some(query) && multiset(ranked) == multiset(response.results)
    ensures cleared == None && results == [] && !loading
  {
    var vm := new SearchViewModel();
    first := vm.PerformSearch(query);
    vm.ReceiveResults(query, response);
    ranked := vm.searchResults;
    vm.CompleteSearch(Finished);
    cleared := vm.PerformSearch("");
    results, loading := vm.searchResults, vm.isLoading;
  }
}
