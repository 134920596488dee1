/**
 * The request-parameter objects the home screen hands to `fetchImages`
 * (app/home/index.js).
 *
 * A JavaScript object literal built with spreads is a map from key to value;
 * `{ a, ...b }` is `map[a] + b`, since in both a later key overrides an
 * earlier one. `page` is a number and every other value a string.
 */
module Requests {
  import opened Wrappers
  import opened FilterSelection

  datatype Value = Num(n: int) | Str(s: string)

  type Params = map<string, Value>

  /** JavaScript truthiness of `activeCategory` (a string or `null`). */
  predicate Truthy(s: Option<string>)
  {
    s.Some? && s.value != ""
  }

  /** `{ ...filters }` inside a parameter object. */
  function AsParams(m: FilterMap): (p: Params)
    ensures p.Keys == m.Keys
    ensures forall k :: k in m ==> p[k] == Str(m[k])
  {
    map k | k in m :: Str(m[k])
  }

  function KeyIf(b: bool, k: string): (s: set<string>)
    ensures b ==> s == {k}
    ensures !b ==> s == {}
  {
    if b then {k} else {}
  }

  /** `{ page, ...filters }`: a filter key called `page` would override the counter. */
  function Paged(page: int, filters: Option<FilterMap>): (p: Params)
    ensures p.Keys == {"page"} + Spread(filters).Keys
    ensures "page" !in Spread(filters) ==> p["page"] == Num(page)
    ensures forall k :: k in Spread(filters) ==> p[k] == Str(Spread(filters)[k])
  {
    map["page" := Num(page)] + AsParams(Spread(filters))
  }

  /**
   * `{ page, ...filters }`, then `params.category = activeCategory` when that
   * is truthy, then `params.q = search` when that is non-empty: the shape of
   * the requests of handleChangeCategory, handleSearch(""), applyFilters,
   * resetFilters, clearThisFilter and handleScroll.
   */
  function QueryParams(page: int, filters: Option<FilterMap>, category: Option<string>, search: string): (p: Params)
    ensures p.Keys == {"page"} + Spread(filters).Keys + KeyIf(Truthy(category), "category") + KeyIf(search != "", "q")
    ensures Truthy(category) ==> p["category"] == Str(category.value)
    ensures search != "" ==> p["q"] == Str(search)
    ensures "page" !in Spread(filters) ==> p["page"] == Num(page)
    ensures forall k :: k in Spread(filters) && !(k == "category" && Truthy(category)) && !(k == "q" && search != "")
                        ==> p[k] == Str(Spread(filters)[k])
  {
    var base := Paged(page, filters);
    var withCategory := if Truthy(category) then base["category" := Str(category.value)] else base;
    if search != "" then withCategory["q" := Str(search)] else withCategory
  }

  /** `{ page, q: text, ...filters }` of handleSearch: here the filters come
      last, so a filter key called `q` would override the searched text. */
  function SearchParams(page: int, text: string, filters: Option<FilterMap>): (p: Params)
    ensures p.Keys == {"page", "q"} + Spread(filters).Keys
    ensures "page" !in Spread(filters) ==> p["page"] == Num(page)
    ensures "q" !in Spread(filters) ==> p["q"] == Str(text)
    ensures forall k :: k in Spread(filters) ==> p[k] == Str(Spread(filters)[k])
  {
    map["page" := Num(page), "q" := Str(text)] + AsParams(Spread(filters))
  }

  /** The panel's own filter keys: none of them collides with a request field. */
  predicate PlainFilters(filters: Option<FilterMap>)
  {
    "page" !in Spread(filters) && "category" !in Spread(filters) && "q" !in Spread(filters)
  }

  /** With the panel's own filter keys, the two orders of building a search
      request agree: the filters-last literal of handleSearch sends the same
      request as the field-by-field construction of the other handlers. */
  lemma SearchParamsAgree(page: int, text: string, filters: Option<FilterMap>)
    requires text != ""
    requires PlainFilters(filters)
    ensures SearchParams(page, text, filters) == QueryParams(page, filters, None, text)
  {
  }

  /** With the panel's own filter keys, the request is exactly page, filters,
      and the category and text when they are truthy, and page is the counter. */
  lemma QueryParamsPlain(page: int, filters: Option<FilterMap>, category: Option<string>, search: string)
    requires PlainFilters(filters)
    ensures QueryParams(page, filters, category, search)["page"] == Num(page)
    ensures "category" in QueryParams(page, filters, category, search) <==> Truthy(category)
    ensures "q" in QueryParams(page, filters, category, search) <==> search != ""
    ensures forall k :: k in Spread(filters) ==> QueryParams(page, filters, category, search)[k] == Str(Spread(filters)[k])
  {
  }
}
