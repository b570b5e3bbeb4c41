/** The full-screen SearchBar: suggestions fetched for the typed query,
    the submit that leaves for the Shop page, and the panel it renders. */
module SearchBar {
  import opened Wrappers
  import opened Catalog
  import opened Seqs
  import opened Text

  const SuggestionCap: nat := 6

  /** The bar's state. The debounce and focus timers are not modelled: a
      fetch is applied as soon as its reply is given. */
  datatype SearchState = SearchState(query: string, suggestions: seq<Product>, loading: bool)

  /** `query.trim().length > 1`, counted in UTF-16 code units: only such
      queries are sent. */
  predicate WorthFetching(query: string)
  {
    Utf16Length(Trim(query)) > 1
  }

  const SearchPath: string := "/products?search="

  /** The suggestions request. The raw query is interpolated untrimmed and
      without URL encoding: the text after the prefix is the query itself. */
  function SuggestionsPath(query: string): (r: string)
    ensures StartsWith(r, SearchPath)
    ensures r[|SearchPath|..] == query
  {
    SearchPath + query
  }

  /** The suggestions request carries the padding that the submit trims
      away: for a query worth fetching, it names the trimmed query exactly
      when the query has no space at either end. */
  lemma SuggestionsKeepPadding(query: string)
    requires WorthFetching(query)
    ensures |query| > 0
    ensures SuggestionsPath(query) == SearchPath + Trim(query) <==>
              !IsSpace(query[0]) && !IsSpace(query[|query| - 1])
  {
    var t := Trim(query);
    if !IsSpace(query[0]) && !IsSpace(query[|query| - 1]) {
      TrimUnpadded(query);
    } else {
      var i, j :| 0 <= i <= j <= |query| && t == query[i..j] &&
        (forall k :: 0 <= k < i ==> IsSpace(query[k])) && (forall k :: j <= k < |query| ==> IsSpace(query[k]));
      assert i > 0 || j < |query|;
      assert |t| < |query|;
      assert |SuggestionsPath(query)| != |SearchPath + t|;
    }
  }

  /** `fetchSuggestions` settled for the current query: a short query clears
      the list without asking; otherwise the first six results replace the
      list, and a failure leaves it as it was. */
  function FetchSuggestions(st: SearchState, reply: Reply<seq<Product>>): (r: SearchState)
    ensures r.query == st.query
    ensures !WorthFetching(st.query) ==> r == st.(suggestions := [])
    ensures WorthFetching(st.query) ==> !r.loading
    ensures WorthFetching(st.query) && reply.Failed? ==> r.suggestions == st.suggestions
    ensures WorthFetching(st.query) && reply.Ok? ==>
              r.suggestions <= reply.data &&
              |r.suggestions| == if |reply.data| < SuggestionCap then |reply.data| else SuggestionCap
  {
    if !WorthFetching(st.query) then st.(suggestions := [])
    else
      match reply
      case Ok(data) => st.(suggestions := Take(data, SuggestionCap), loading := false)
      case Failed(_) => st.(loading := false)
  }

  /** The bar closing (`isOpen` false): the query and the suggestions are
      cleared; `loading` is left as it was. */
  function Close(st: SearchState): (r: SearchState)
    ensures r.query == "" && r.suggestions == [] && r.loading == st.loading
    ensures !WorthFetching(r.query)
  {
    assert Trim("") == "";
    SearchState("", [], st.loading)
  }

  /** Closing twice is closing once, and a closed bar fetches nothing. */
  lemma CloseIdempotent(st: SearchState, reply: Reply<seq<Product>>)
    ensures Close(Close(st)) == Close(st)
    ensures FetchSuggestions(Close(st), reply) == Close(st)
  {
  }

  /** `handleSearch`: with a non-blank query the bar closes and navigates
      to the Shop page with the trimmed query, percent-encoded by `encode`
      (the browser's `encodeURIComponent`, a parameter here). A blank query
      does nothing. */
  function HandleSearch(query: string, encode: string -> string): (r: Option<string>)
    ensures r.None? <==> forall k :: 0 <= k < |query| ==> IsSpace(query[k])
    ensures r.Some? ==> r.value == SearchPath + encode(Trim(query))
  {
    if Trim(query) != "" then Some(SearchPath + encode(Trim(query))) else None
  }

  /** Padding around the query does not change where a search leads. */
  lemma SearchIgnoresPadding(query: string, encode: string -> string)
    requires Trim(query) != ""
    ensures HandleSearch(query, encode) == HandleSearch(Trim(query), encode)
  {
    TrimIdempotent(query);
  }

  /** Trimming a trimmed string changes nothing. */
  lemma TrimIdempotent(s: string)
    ensures Trim(Trim(s)) == Trim(s)
  {
    var t := Trim(s);
    if t != "" {
      TrimUnpadded(t);
    }
  }

  const PopularSearches: seq<string> :=
    ["Wireless Printers", "Ink Tank", "LaserJet Pro", "3D Filament", "Photo Paper", "Gaming Mouse"]

  /** The left panel: results once the untrimmed query is longer than one
      UTF-16 code unit, else the popular-search tags. */
  datatype Panel =
    | Results(heading: string, viewAll: bool, cards: seq<Product>, noResults: bool)
    | Popular(tags: seq<string>)

  function RenderPanel(st: SearchState): (r: Panel)
    ensures r.Results? <==> Utf16Length(st.query) > 1
    ensures r.Results? ==> r.cards == st.suggestions
    ensures r.Results? ==> (r.viewAll <==> |st.suggestions| > 0)
    ensures r.Results? ==> (r.noResults <==> !st.loading && |st.suggestions| == 0)
    ensures r.Results? && st.loading ==> r.heading == "Searching..."
    ensures r.Popular? ==> r.tags == PopularSearches
  {
    if Utf16Length(st.query) > 1 then
      Results(if st.loading then "Searching..." else "Results for \"" + st.query + "\"",
              |st.suggestions| > 0, st.suggestions, !st.loading && |st.suggestions| == 0)
    else Popular(PopularSearches)
  }

  /** The two length tests disagree on padded queries: two spaces open the
      results panel, but nothing is fetched, so it reports "No products
      found" for a query the user has not really typed. */
  lemma BlankQueryShowsNoResults(st: SearchState, reply: Reply<seq<Product>>)
    requires |st.query| > 1 && !st.loading
    requires forall k :: 0 <= k < |st.query| ==> IsSpace(st.query[k])
    ensures RenderPanel(FetchSuggestions(st, reply)).Results?
    ensures RenderPanel(FetchSuggestions(st, reply)).noResults
  {
    assert Trim(st.query) == "";
  }

  /** A single character outside the Basic Multilingual Plane (an emoji,
      say) is two code units long: it is fetched and opens the results
      panel, although it is one character. */
  lemma AstralCharIsFetched(c: char, suggestions: seq<Product>, loading: bool)
    requires c as int > 0xFFFF
    ensures |[c]| == 1
    ensures WorthFetching([c])
    ensures RenderPanel(SearchState([c], suggestions, loading)).Results?
  {
    assert !IsSpace(c);
    TrimUnpadded([c]);
    assert Utf16Length([c]) == 2;
  }

  /** A popular tag fills the query with text that is already trimmed and
      long enough, so clicking a tag always fetches suggestions. */
  lemma PopularTagsAreFetched(i: nat)
    requires i < |PopularSearches|
    ensures Trim(PopularSearches[i]) == PopularSearches[i]
    ensures WorthFetching(PopularSearches[i])
  {
    var tag := PopularSearches[i];
    assert |tag| > 1 && !IsSpace(tag[0]) && !IsSpace(tag[|tag| - 1]);
    TrimUnpadded(tag);
  }
}
