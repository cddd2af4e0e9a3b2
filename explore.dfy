/** The explore screen: two search boxes (series and live TV) that fetch the
    whole list and keep the entries whose lower-cased name contains the
    lower-cased trimmed query, and a category grid shown only while neither
    box holds or runs a search. */
module Explore {
  import opened Common
  import opened Types

  /** How many categories of each kind the grid shows. */
  const GridSize: nat := 6

  /** `name.toLowerCase().includes(query.toLowerCase())`. */
  predicate NameMatches(name: string, query: string) {
    Contains(Lower(name), Lower(query))
  }

  /** `items.filter(x => NameMatches(name(x), query))`. */
  function FilterByName<T>(items: seq<T>, nameOf: T -> string, query: string): (r: seq<T>)
    ensures |r| <= |items|
    ensures forall x :: x in r ==> x in items && NameMatches(nameOf(x), query)
    ensures forall x :: x in items && NameMatches(nameOf(x), query) ==> x in r
  {
    if items == [] then []
    else (if NameMatches(nameOf(items[0]), query) then [items[0]] else [])
         + FilterByName(items[1..], nameOf, query)
  }

  /** The filter keeps the original order: filtering a concatenation is
      concatenating the filtered parts. */
  lemma {:induction false} FilterAppend<T>(a: seq<T>, b: seq<T>, nameOf: T -> string, query: string)
    ensures FilterByName(a + b, nameOf, query) == FilterByName(a, nameOf, query) + FilterByName(b, nameOf, query)
  {
    if a != [] {
      assert (a + b)[0] == a[0];
      assert (a + b)[1..] == a[1..] + b;
      FilterAppend(a[1..], b, nameOf, query);
    } else {
      assert a + b == b;
    }
  }

  /** The case of the query does not matter. */
  lemma QueryCaseIgnored(name: string, query: string)
    ensures NameMatches(name, query) <==> NameMatches(name, Lower(query))
  {
    LowerIdempotent(query);
  }

  /** Two queries with the same lower-case form select the same entries. */
  lemma {:induction false} FilterDependsOnFoldedQuery<T>(items: seq<T>, nameOf: T -> string, q1: string, q2: string)
    requires Lower(q1) == Lower(q2)
    ensures FilterByName(items, nameOf, q1) == FilterByName(items, nameOf, q2)
  {
    if items != [] {
      FilterDependsOnFoldedQuery(items[1..], nameOf, q1, q2);
    }
  }

  /** Searching the results again with the same query gives them back. */
  lemma {:induction false} FilterIdempotent<T>(items: seq<T>, nameOf: T -> string, query: string)
    ensures FilterByName(FilterByName(items, nameOf, query), nameOf, query) == FilterByName(items, nameOf, query)
  {
    if items != [] {
      var head := if NameMatches(nameOf(items[0]), query) then [items[0]] else [];
      FilterIdempotent(items[1..], nameOf, query);
      FilterAppend(head, FilterByName(items[1..], nameOf, query), nameOf, query);
      if head != [] {
        assert head[1..] == [];
      }
    }
  }

  /** An entry is always found by its own name. */
  lemma NameMatchesItself(name: string)
    ensures NameMatches(name, name)
  {
    assert Lower(name) + "" == Lower(name);
    ContainsPrefix(Lower(name), "");
  }

  /** The state of one search box and its results. */
  class SearchPanel<T> {
    /** The field the filter reads (`name`). */
    const nameOf: T -> string
    var input: string
    var results: seq<T>
    var lastQuery: string
    var searching: bool

    constructor (nameOf0: T -> string)
      ensures nameOf == nameOf0 && input == "" && results == [] && lastQuery == "" && !searching
    {
      nameOf := nameOf0;
      input := "";
      results := [];
      lastQuery := "";
      searching := false;
    }

    /** Typing in the box. */
    method SetInput(text: string)
      modifies this`input
      ensures input == text
    {
      input := text;
    }

    /** The start of the submit handler: a query blank after trimming changes
        nothing; otherwise the search starts with empty results. The result
        is the query the list is filtered with when it arrives. */
    method Submit() returns (query: Option<string>)
      modifies this`searching, this`results, this`lastQuery
      ensures Trim(input) == [] ==> query == None && unchanged(this)
      ensures Trim(input) != [] ==>
                query == Some(Trim(input)) && searching && results == [] && lastQuery == Trim(input)
    {
      var q := Trim(input);
      if q == [] {
        return None;
      }
      searching, results, lastQuery := true, [], q;
      query := Some(q);
    }

    /** The fetch of the whole list settles: success keeps the matching
        entries and clears the box; failure keeps both. Searching ends either way. */
    method Settled(query: string, result: Fetch<seq<T>>)
      modifies this`results, this`input, this`searching
      ensures !searching
      ensures result.Ok? ==> results == FilterByName(result.data, nameOf, query) && input == ""
      ensures result.Fail? ==> results == old(results) && input == old(input)
    {
      if result.Ok? {
        results := FilterByName(result.data, nameOf, query);
        input := "";
      }
      searching := false;
    }

    /** The clear button. */
    method Clear()
      modifies this`results, this`lastQuery
      ensures results == [] && lastQuery == ""
    {
      results := [];
      lastQuery := "";
    }
  }

  /** A whole search: submit, then the fetch settles. After it the results are
      exactly the matching entries in order (nothing on failure), the last
      query is the trimmed input, and the box is cleared only on success. */
  method Search<T>(panel: SearchPanel<T>, result: Fetch<seq<T>>)
    modifies panel
    ensures var q := Trim(old(panel.input));
            && (q == "" ==> unchanged(panel))
            && (q != "" ==>
                  && !panel.searching
                  && panel.lastQuery == q
                  && panel.results == (if result.Ok? then FilterByName(result.data, panel.nameOf, q) else [])
                  && panel.input == (if result.Ok? then "" else old(panel.input)))
  {
    var query := panel.Submit();
    if query.Some? {
      panel.Settled(query.value, result);
    }
  }

  /** The screen: the two boxes and the category lists from the shared state. */
  class ExploreScreen {
    const series: SearchPanel<Title>
    const tv: SearchPanel<Channel>
    const vodCategories: seq<Category>
    const seriesCategories: seq<Category>

    constructor (vod: seq<Category>, seriesCats: seq<Category>)
      ensures fresh(series) && fresh(tv)
      ensures series.input == "" && series.lastQuery == "" && !series.searching && series.results == []
      ensures tv.input == "" && tv.lastQuery == "" && !tv.searching && tv.results == []
      ensures vodCategories == vod && seriesCategories == seriesCats
    {
      series := new SearchPanel((t: Title) => t.name);
      tv := new SearchPanel((c: Channel) => c.name);
      vodCategories := vod;
      seriesCategories := seriesCats;
    }

    /** The category grid: shown only with no last query and no search
        running in either box, and then at most six categories of each kind,
        the first ones in order. */
    method Grid() returns (grid: Option<(seq<Category>, seq<Category>)>)
      ensures grid.Some? <==> series.lastQuery == "" && tv.lastQuery == "" && !series.searching && !tv.searching
      ensures grid.Some? ==> grid.value == (Take(vodCategories, GridSize), Take(seriesCategories, GridSize))
      ensures grid.Some? ==> |grid.value.0| <= GridSize && |grid.value.1| <= GridSize
    {
      if series.lastQuery == "" && tv.lastQuery == "" && !series.searching && !tv.searching {
        grid := Some((Take(vodCategories, GridSize), Take(seriesCategories, GridSize)));
      } else {
        grid := None;
      }
    }
  }

  /** A series search hides the grid, and clearing it brings the grid back
      when the TV box is idle. */
  method SearchHidesGrid(screen: ExploreScreen, result: Fetch<seq<Title>>)
    returns (shownDuring: bool, shownAfter: bool)
    requires Trim(screen.series.input) != ""
    requires screen.series as object != screen.tv
    requires screen.tv.lastQuery == "" && !screen.tv.searching
    modifies screen.series
    ensures !shownDuring && shownAfter
  {
    Search(screen.series, result);
    var during := screen.Grid();
    shownDuring := during.Some?;
    screen.series.Clear();
    var after := screen.Grid();
    shownAfter := after.Some?;
  }
}
