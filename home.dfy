/**
 * The query and pagination controller of the home screen (app/home/index.js).
 *
 * The fields are the screen's state: the module-level page counter and the
 * React state `images`, `filters`, `activeCategory`, `search` and
 * `isEndReached`. Every handler is a sequential method over the current
 * fields: a state setter takes effect at once, and every handler sees the
 * latest state (React's stale closures are not modelled). The API response a
 * handler's fetch receives is a parameter, and the request the handler sends
 * is returned.
 */
module Home {
  import opened Wrappers
  import opened FilterSelection
  import opened Requests
  import opened Results
  import opened ScrollEdge

  /** One call `fetchImages(params, append)`. */
  datatype Fetch = Fetch(params: Params, append: bool)

  class HomeScreen<T> {
    var page: int
    var images: seq<T>
    var filters: Option<FilterMap>
    var activeCategory: Option<string>
    var search: string
    var isEndReached: bool

    /** The page counter starts at 1 and never drops below it. */
    ghost predicate Valid()
      reads this
      ensures Valid() ==> page > 0
    {
      page >= 1
    }

    constructor ()
      ensures Valid()
      ensures page == 1 && images == [] && filters == None && activeCategory == None
      ensures search == "" && !isEndReached
    {
      page := 1;
      images := [];
      filters := None;
      activeCategory := None;
      search := "";
      isEndReached := false;
    }

    /** `fetchImages(params, append)`: merge the response into the list,
        appending or replacing; a failed or empty-payload answer changes nothing. */
    method FetchImages(params: Params, append: bool, response: Response<T>) returns (sent: Fetch)
      requires Valid()
      modifies this`images
      ensures Valid()
      ensures images == Merge(old(images), response, append)
      ensures sent == Fetch(params, append)
    {
      if response.success && response.hits.Some? {
        if append {
          images := images + response.hits.value;
        } else {
          images := response.hits.value;
        }
      }
      sent := Fetch(params, append);
    }

    /** The mount effect: `fetchImages()` with its defaults `{ page: 1 }` and append. */
    method Mount(response: Response<T>) returns (sent: Fetch)
      requires Valid()
      modifies this`images
      ensures Valid()
      ensures images == Merge(old(images), response, true)
      ensures sent == Fetch(map["page" := Num(1)], true)
    {
      sent := FetchImages(map["page" := Num(1)], true, response);
    }

    /** `setFilters` as called by a chip's `onSelect` in the filter panel. */
    method SelectFilter(filterName: string, item: string)
      requires Valid()
      modifies this`filters
      ensures Valid()
      ensures filters == Some(OnSelect(old(filters), filterName, item))
    {
      filters := Some(OnSelect(filters, filterName, item));
    }

    /** `handleChangeCategory(category)`: select the category, clear the search
        text and restart from page 1 with the current filters, in replace mode. */
    method HandleChangeCategory(category: Option<string>, response: Response<T>) returns (sent: Fetch)
      requires Valid()
      modifies this
      ensures Valid()
      ensures page == 1 && activeCategory == category && search == ""
      ensures filters == old(filters) && isEndReached == old(isEndReached)
      ensures images == Merge([], response, false)
      ensures sent == Fetch(QueryParams(1, filters, category, ""), false)
      ensures "category" in sent.params <==> Truthy(category) || "category" in Spread(filters)
      ensures "q" in sent.params <==> "q" in Spread(filters)
    {
      activeCategory := category;
      search := "";
      images := [];
      page := 1;
      var params := Paged(page, filters);
      if Truthy(category) {
        params := params["category" := Str(category.value)];
      }
      sent := FetchImages(params, false, response);
    }

    /** `handleSearch(text)`, given the settled text of the debounced input.
        Longer than two characters: search for it from page 1 without a
        category. Empty: the same without `q`. One or two characters: only
        remember the text. */
    method HandleSearch(text: string, response: Response<T>) returns (sent: Option<Fetch>)
      requires Valid()
      modifies this
      ensures Valid()
      ensures search == text && filters == old(filters) && isEndReached == old(isEndReached)
      ensures |text| > 2 ==>
        && page == 1 && activeCategory == None && images == Merge([], response, false)
        && sent == Some(Fetch(SearchParams(1, text, filters), false))
      ensures text == "" ==>
        && page == 1 && activeCategory == None && images == Merge([], response, false)
        && sent == Some(Fetch(QueryParams(1, filters, None, ""), false))
      ensures 0 < |text| <= 2 ==>
        && page == old(page) && activeCategory == old(activeCategory) && images == old(images)
        && sent == None
    {
      search := text;
      sent := None;
      if |text| > 2 {
        page := 1;
        images := [];
        activeCategory := None;
        var f := FetchImages(SearchParams(page, text, filters), false, response);
        sent := Some(f);
      }
      if text == "" {
        page := 1;
        images := [];
        activeCategory := None;
        var f := FetchImages(Paged(page, filters), false, response);
        sent := Some(f);
      }
    }

    /** `applyFilters()`: with filters set, restart from page 1 with the
        filters, category and text, in replace mode; with none, do nothing. */
    method ApplyFilters(response: Response<T>) returns (sent: Option<Fetch>)
      requires Valid()
      modifies this
      ensures Valid()
      ensures filters == old(filters) && activeCategory == old(activeCategory)
      ensures search == old(search) && isEndReached == old(isEndReached)
      ensures filters.None? ==> page == old(page) && images == old(images) && sent == None
      ensures filters.Some? ==>
        && page == 1 && images == Merge([], response, false)
        && sent == Some(Fetch(QueryParams(1, filters, activeCategory, search), false))
    {
      sent := None;
      if filters.Some? {
        page := 1;
        images := [];
        var params := Paged(page, filters);
        if Truthy(activeCategory) {
          params := params["category" := Str(activeCategory.value)];
        }
        if search != "" {
          params := params["q" := Str(search)];
        }
        var f := FetchImages(params, false, response);
        sent := Some(f);
      }
    }

    /** `resetFilters()`: with filters set, drop them and restart from page 1
        with only category and text, in replace mode; with none, do nothing. */
    method ResetFilters(response: Response<T>) returns (sent: Option<Fetch>)
      requires Valid()
      modifies this
      ensures Valid()
      ensures activeCategory == old(activeCategory) && search == old(search) && isEndReached == old(isEndReached)
      ensures old(filters).None? ==> filters == None && page == old(page) && images == old(images) && sent == None
      ensures old(filters).Some? ==>
        && filters == None && page == 1 && images == Merge([], response, false)
        && sent == Some(Fetch(QueryParams(1, None, activeCategory, search), false))
        && sent.value.params.Keys <= {"page", "category", "q"}
    {
      sent := None;
      if filters.Some? {
        page := 1;
        filters := None;
        images := [];
        var params: Params := map["page" := Num(page)];
        assert params == Paged(1, None);
        if Truthy(activeCategory) {
          params := params["category" := Str(activeCategory.value)];
        }
        if search != "" {
          params := params["q" := Str(search)];
        }
        var f := FetchImages(params, false, response);
        sent := Some(f);
      }
    }

    /** `clearThisFilter(filterName)`: remove one key, clear the list and
        restart from page 1 with the reduced filters, category and text. The
        call uses the default append mode, which on the cleared list is a replace. */
    method ClearThisFilter(filterName: string, response: Response<T>) returns (sent: Fetch)
      requires Valid()
      modifies this
      ensures Valid()
      ensures filters == Some(Spread(old(filters)) - {filterName})
      ensures filterName !in filters.value
      ensures forall k :: k != filterName ==>
        (k in filters.value <==> k in Spread(old(filters))) &&
        (k in filters.value ==> filters.value[k] == Spread(old(filters))[k])
      ensures activeCategory == old(activeCategory) && search == old(search) && isEndReached == old(isEndReached)
      ensures page == 1
      ensures images == Merge([], response, false)
      ensures sent == Fetch(QueryParams(1, filters, activeCategory, search), true)
    {
      var newFilters := Spread(filters);
      newFilters := newFilters - {filterName};
      filters := Some(newFilters);
      page := 1;
      images := [];
      var params := Paged(page, Some(newFilters));
      if Truthy(activeCategory) {
        params := params["category" := Str(activeCategory.value)];
      }
      if search != "" {
        params := params["q" := Str(search)];
      }
      sent := FetchImages(params, true, response);
      AppendToEmptyIsReplace(response);
    }

    /** `handleScroll(event)`: on reaching the bottom, set the flag, move to the
        next page and append it; while staying there, do nothing; away from
        the bottom, re-arm the flag. */
    method HandleScroll(contentHeight: int, scrollViewHeight: int, scrollOffset: int, response: Response<T>)
      returns (sent: Option<Fetch>)
      requires Valid()
      modifies this
      ensures Valid()
      ensures var before := Detector(old(isEndReached), old(page));
              var sample := Sample(contentHeight, scrollViewHeight, scrollOffset);
              && Detector(isEndReached, page) == Step(before, sample)
              && (sent.Some? <==> Fires(before, sample))
      ensures filters == old(filters) && activeCategory == old(activeCategory) && search == old(search)
      ensures sent.Some? ==>
        && page == old(page) + 1
        && images == Merge(old(images), response, true)
        && sent == Some(Fetch(QueryParams(page, filters, activeCategory, search), true))
      ensures sent.None? ==> page == old(page) && images == old(images)
    {
      sent := None;
      var bottomPosition := contentHeight - scrollViewHeight;
      if scrollOffset >= bottomPosition - 1 {
        if !isEndReached {
          isEndReached := true;
          page := page + 1;
          var params := Paged(page, filters);
          if Truthy(activeCategory) {
            params := params["category" := Str(activeCategory.value)];
          }
          if search != "" {
            params := params["q" := Str(search)];
          }
          var f := FetchImages(params, true, response);
          sent := Some(f);
        }
      } else if isEndReached {
        isEndReached := false;
      }
    }
  }

  /** A session: pick two filters, remove one of them, then stay at the bottom
      for three scroll samples. */
  method FilterRemovalSession<T>(hits: seq<T>)
  {
    var screen := new HomeScreen<T>();
    screen.SelectFilter("order", "popular");
    screen.SelectFilter("colors", "red");
    assert screen.filters == Some(map["order" := "popular", "colors" := "red"]);
    var removed := screen.ClearThisFilter("colors", Response(false, None));
    assert screen.filters.value.Keys == {"order"} && screen.filters.value["order"] == "popular";
    assert screen.filters.value == map["order" := "popular"];
    assert removed.params == map["page" := Num(1), "order" := Str("popular")];
    assert screen.images == [];

    var first := screen.HandleScroll(1000, 800, 200, Response(true, Some(hits)));
    var second := screen.HandleScroll(1000, 800, 199, Response(true, Some(hits)));
    var third := screen.HandleScroll(1000, 800, 250, Response(true, Some(hits)));
    assert first.Some? && second.None? && third.None?;
    assert screen.page == 2 && screen.images == hits;
  }

  /** A one- or two-character search neither resets the page nor clears the
      list, so the next scroll edge appends page 2 of the new query to the
      previous query's results. */
  method ShortSearchThenScroll<T>(cats: seq<T>, more: seq<T>)
  {
    var screen := new HomeScreen<T>();
    var searched := screen.HandleSearch("cats", Response(true, Some(cats)));
    var shortened := screen.HandleSearch("ca", Response(true, Some(cats)));
    assert shortened.None? && screen.page == 1 && screen.images == cats && screen.search == "ca";

    var next := screen.HandleScroll(1000, 800, 200, Response(true, Some(more)));
    assert next.Some? && next.value.append;
    assert next.value.params["q"] == Str("ca") && next.value.params["page"] == Num(2);
    assert screen.images == cats + more;
  }
}
