/**
 * The filter chips of the filter panel (components/sectionView.js).
 *
 * A filter map sends a filter name (`order`, `orientation`, `type`, `colors`)
 * to the selected value. The screen keeps it as `null` until something is
 * selected, so it is modelled as an `Option<FilterMap>`.
 */
module FilterSelection {
  import opened Wrappers

  type FilterMap = map<string, string>

  /** `{ ...filters }`: spreading `null` gives the empty object. */
  function Spread(filters: Option<FilterMap>): (m: FilterMap)
    ensures filters.None? ==> m == map[]
    ensures filters.Some? ==> m == filters.value
  {
    match filters
    case None => map[]
    case Some(f) => f
  }

  /** `onSelect(item)` in CommonFilterRow and ColorFilterRow:
      the map handed to `setFilters` is `{ ...filters, [filterName]: item }`. */
  function OnSelect(filters: Option<FilterMap>, filterName: string, item: string): (r: FilterMap)
    ensures filterName in r && r[filterName] == item
    ensures r.Keys == Spread(filters).Keys + {filterName}
    ensures forall k :: k in Spread(filters) && k != filterName ==> r[k] == Spread(filters)[k]
    ensures filters.None? ==> r == map[filterName := item]
  {
    Spread(filters)[filterName := item]
  }

  /** `filters && filters[filterName] === item`: a missing key reads as
      `undefined`, which is never equal to a chip's string. */
  predicate IsActive(filters: Option<FilterMap>, filterName: string, item: string)
    ensures filters.None? ==> !IsActive(filters, filterName, item)
    ensures filterName !in Spread(filters) ==> !IsActive(filters, filterName, item)
    ensures filters.Some? && filterName in Spread(filters) ==>
      (IsActive(filters, filterName, item) <==> Spread(filters)[filterName] == item)
  {
    filters.Some? && filterName in filters.value && filters.value[filterName] == item
  }

  /** `data.map(...)`: the highlight flag of every chip of one row. */
  function RowActivity(data: seq<string>, filterName: string, filters: Option<FilterMap>): (flags: seq<bool>)
    ensures |flags| == |data|
    ensures forall i :: 0 <= i < |data| ==> (flags[i] <==> IsActive(filters, filterName, data[i]))
  {
    seq(|data|, i requires 0 <= i < |data| => IsActive(filters, filterName, data[i]))
  }

  /** Nothing is highlighted before the first selection. */
  lemma NothingActiveWithoutFilters(data: seq<string>, filterName: string)
    ensures forall i :: 0 <= i < |data| ==> !RowActivity(data, filterName, None)[i]
  {
  }

  /** Right after `onSelect(item)` exactly that item is highlighted in its row. */
  lemma SelectedIsOnlyActive(filters: Option<FilterMap>, filterName: string, item: string, other: string)
    ensures IsActive(Some(OnSelect(filters, filterName, item)), filterName, other) <==> other == item
  {
  }

  /** Selecting in one row leaves the highlighting of every other row as it was. */
  lemma SelectKeepsOtherRows(filters: Option<FilterMap>, filterName: string, item: string,
                             otherName: string, other: string)
    requires otherName != filterName
    ensures IsActive(Some(OnSelect(filters, filterName, item)), otherName, other)
        <==> IsActive(filters, otherName, other)
  {
  }

  /** Selecting the same chip twice gives the same map as selecting it once. */
  lemma OnSelectIdempotent(filters: Option<FilterMap>, filterName: string, item: string)
    ensures OnSelect(Some(OnSelect(filters, filterName, item)), filterName, item)
         == OnSelect(filters, filterName, item)
  {
  }

  /** In a row of distinct chips, selecting the chip at index `j` highlights
      index `j` and no other. */
  lemma RowHighlightsSelected(data: seq<string>, filterName: string,
                               filters: Option<FilterMap>, j: nat)
    requires j < |data|
    requires forall a, b :: 0 <= a < b < |data| ==> data[a] != data[b]
    ensures forall i :: 0 <= i < |data| ==>
      (RowActivity(data, filterName, Some(OnSelect(filters, filterName, data[j])))[i] <==> i == j)
  {
  }
}
