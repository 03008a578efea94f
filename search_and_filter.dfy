/**
 * `SearchAndFilter`: the filter record, its "active filter" counter, the reset
 * to defaults, the single-key update and the summary texts.
 */
module SearchAndFilter {
  import opened Optional
  import opened JsText

  datatype DateRange = AllTime | Today | Week | Month
  datatype ScoreRange = AllScores | HighScores | MediumScores | LowScores
  datatype Status = AnyStatus | Completed | Processing | Failed
  datatype SortBy = ByDate | ByScore | ByName
  datatype SortOrder = Asc | Desc

  /** `FilterOptions`. */
  datatype FilterOptions = FilterOptions(
    search: string,
    dateRange: DateRange,
    scoreRange: ScoreRange,
    status: Status,
    sortBy: SortBy,
    sortOrder: SortOrder)

  /** The record `clearFilters` hands to `onFiltersChange`. */
  const Cleared: FilterOptions := FilterOptions("", AllTime, AllScores, AnyStatus, ByDate, Desc)

  // ---------------------------------------------------------------------------
  // Active filter count

  /** What the counter counts: the sort field and order together are one facet. */
  datatype Facet = SearchFacet | DateFacet | ScoreFacet | StatusFacet | SortFacet

  /** `f` departs from its default in this facet; any non-empty search counts, blank or not. */
  predicate Departs(f: FilterOptions, x: Facet)
  {
    match x
    case SearchFacet => f.search != ""
    case DateFacet => f.dateRange != AllTime
    case ScoreFacet => f.scoreRange != AllScores
    case StatusFacet => f.status != AnyStatus
    case SortFacet => f.sortBy != ByDate || f.sortOrder != Desc
  }

  /** `p`, followed by `x` when `c` holds: one test of the counter. */
  function Extended(p: seq<Facet>, x: Facet, c: bool): seq<Facet>
  {
    if c then p + [x] else p
  }

  /** The departing facets, in the order the counter tests them. */
  function ActiveFacets(f: FilterOptions): seq<Facet>
  {
    var p1 := Extended([], SearchFacet, Departs(f, SearchFacet));
    var p2 := Extended(p1, DateFacet, Departs(f, DateFacet));
    var p3 := Extended(p2, ScoreFacet, Departs(f, ScoreFacet));
    var p4 := Extended(p3, StatusFacet, Departs(f, StatusFacet));
    Extended(p4, SortFacet, Departs(f, SortFacet))
  }

  /** `activeFilterCount`: one increment per departing facet. */
  method ActiveFilterCount(f: FilterOptions) returns (count: nat)
    ensures count == |ActiveFacets(f)|
  {
    count := 0;
    if f.search != "" { count := count + 1; }
    if f.dateRange != AllTime { count := count + 1; }
    if f.scoreRange != AllScores { count := count + 1; }
    if f.status != AnyStatus { count := count + 1; }
    if f.sortBy != ByDate || f.sortOrder != Desc { count := count + 1; }
  }

  /**
   * A facet is listed exactly when it departs, no facet is listed twice, and
   * so the count is the number of departing facets, between 0 and 5.
   */
  lemma ActiveFacetsExact(f: FilterOptions)
    ensures forall x :: x in ActiveFacets(f) <==> Departs(f, x)
    ensures forall i, j :: 0 <= i < j < |ActiveFacets(f)| ==> ActiveFacets(f)[i] != ActiveFacets(f)[j]
    ensures |ActiveFacets(f)| <= 5
  {
    ActiveFacetsDistinct(f);
  }

  /** No facet is listed twice, as the counter tests each facet once. */
  lemma ActiveFacetsDistinct(f: FilterOptions)
    ensures NoRepeats(ActiveFacets(f))
  {
    var p1 := Extended([], SearchFacet, Departs(f, SearchFacet));
    var p2 := Extended(p1, DateFacet, Departs(f, DateFacet));
    var p3 := Extended(p2, ScoreFacet, Departs(f, ScoreFacet));
    var p4 := Extended(p3, StatusFacet, Departs(f, StatusFacet));
    ExtendDistinct([], SearchFacet, Departs(f, SearchFacet));
    ExtendDistinct(p1, DateFacet, Departs(f, DateFacet));
    ExtendDistinct(p2, ScoreFacet, Departs(f, ScoreFacet));
    ExtendDistinct(p3, StatusFacet, Departs(f, StatusFacet));
    ExtendDistinct(p4, SortFacet, Departs(f, SortFacet));
  }

  /** No facet occurs twice in `p`. */
  predicate NoRepeats(p: seq<Facet>)
  {
    forall i, j :: 0 <= i < j < |p| ==> p[i] != p[j]
  }

  /** The position of a facet in the counter's order. */
  function Rank(x: Facet): nat
  {
    match x
    case SearchFacet => 0
    case DateFacet => 1
    case ScoreFacet => 2
    case StatusFacet => 3
    case SortFacet => 4
  }

  /** Every facet of `p` comes before position `r`. */
  predicate RanksBelow(p: seq<Facet>, r: nat)
  {
    forall i :: 0 <= i < |p| ==> Rank(p[i]) < r
  }

  /** Appending a facet that comes after all of a duplicate-free list keeps it duplicate-free. */
  lemma ExtendDistinct(p: seq<Facet>, x: Facet, c: bool)
    requires NoRepeats(p) && RanksBelow(p, Rank(x))
    ensures NoRepeats(Extended(p, x, c)) && RanksBelow(Extended(p, x, c), Rank(x) + 1)
  {
  }

  /** The count is 0 exactly when the filters equal the cleared record; clearing gives 0. */
  lemma ActiveCountZeroIffCleared(f: FilterOptions)
    ensures |ActiveFacets(f)| == 0 <==> f == Cleared
    ensures |ActiveFacets(Cleared)| == 0
  {
  }

  /** The sort settings add at most 1, even when both differ from the defaults. */
  lemma SortCountsOnce(f: FilterOptions)
    ensures var g := f.(sortBy := ByDate, sortOrder := Desc);
      |ActiveFacets(f)| == |ActiveFacets(g)| + (if f.sortBy != ByDate || f.sortOrder != Desc then 1 else 0)
  {
  }

  /** The search counts for any non-empty text, white space only included (there is no trim). */
  lemma SearchCountsWithoutTrim(f: FilterOptions)
    ensures SearchFacet in ActiveFacets(f) <==> f.search != ""
    ensures IsBlank(f.search) && f.search != "" ==> SearchFacet in ActiveFacets(f)
  {
    ActiveFacetsExact(f);
  }

  // ---------------------------------------------------------------------------
  // Single-key update

  /**
   * A key of `FilterOptions` paired with a value of that key's type: the
   * arguments of `updateFilter(key, value)`.
   */
  datatype FilterUpdate =
    | SetSearch(search: string)
    | SetDateRange(dateRange: DateRange)
    | SetScoreRange(scoreRange: ScoreRange)
    | SetStatus(status: Status)
    | SetSortBy(sortBy: SortBy)
    | SetSortOrder(sortOrder: SortOrder)

  datatype FilterKey = SearchKey | DateRangeKey | ScoreRangeKey | StatusKey | SortByKey | SortOrderKey

  function KeyOf(u: FilterUpdate): FilterKey
  {
    match u
    case SetSearch(_) => SearchKey
    case SetDateRange(_) => DateRangeKey
    case SetScoreRange(_) => ScoreRangeKey
    case SetStatus(_) => StatusKey
    case SetSortBy(_) => SortByKey
    case SetSortOrder(_) => SortOrderKey
  }

  /** `filters[key]`, given as the update that would write it. */
  function Field(f: FilterOptions, k: FilterKey): (u: FilterUpdate)
    ensures KeyOf(u) == k
  {
    match k
    case SearchKey => SetSearch(f.search)
    case DateRangeKey => SetDateRange(f.dateRange)
    case ScoreRangeKey => SetScoreRange(f.scoreRange)
    case StatusKey => SetStatus(f.status)
    case SortByKey => SetSortBy(f.sortBy)
    case SortOrderKey => SetSortOrder(f.sortOrder)
  }

  /** `{ ...filters, [key]: value }`. */
  function UpdateFilter(f: FilterOptions, u: FilterUpdate): FilterOptions
  {
    match u
    case SetSearch(v) => f.(search := v)
    case SetDateRange(v) => f.(dateRange := v)
    case SetScoreRange(v) => f.(scoreRange := v)
    case SetStatus(v) => f.(status := v)
    case SetSortBy(v) => f.(sortBy := v)
    case SetSortOrder(v) => f.(sortOrder := v)
  }

  /** The update sets its key to its value and leaves every other key as it was. */
  lemma UpdateFilterFrame(f: FilterOptions, u: FilterUpdate)
    ensures Field(UpdateFilter(f, u), KeyOf(u)) == u
    ensures forall k :: k != KeyOf(u) ==> Field(UpdateFilter(f, u), k) == Field(f, k)
  {
  }

  /** Writing back a key's own value changes nothing; the record is determined by its keys. */
  lemma UpdateFilterOwnValue(f: FilterOptions, k: FilterKey)
    ensures UpdateFilter(f, Field(f, k)) == f
  {
  }

  /** Updates of two different keys commute. */
  lemma UpdatesCommute(f: FilterOptions, u: FilterUpdate, v: FilterUpdate)
    requires KeyOf(u) != KeyOf(v)
    ensures UpdateFilter(UpdateFilter(f, u), v) == UpdateFilter(UpdateFilter(f, v), u)
  {
  }

  // ---------------------------------------------------------------------------
  // Texts and visibility

  /** The plural suffix: "s" unless the count is exactly 1. */
  function Plural(n: int): string
  {
    if n != 1 then "s" else ""
  }

  /**
   * The inner `activeFilterCount > 0` guard of "{n} filter(s) active" and its
   * Clear button; the footer that holds them has its own guard (`ResultsFooter`).
   */
  function ActiveSummary(activeCount: nat): Option<string>
  {
    if activeCount > 0 then Some(NatToString(activeCount) + " filter" + Plural(activeCount) + " active") else None
  }

  /** "{n} result(s) found", then ` for "{search}"` when there is a search. */
  function ResultSummary(resultCount: nat, search: string): string
  {
    NatToString(resultCount) + " result" + Plural(resultCount) + " found"
    + (if search != "" then " for \"" + search + "\"" else "")
  }

  /** The count guard passes exactly for a non-zero count, and the text ends in "s active" exactly when it is not 1. */
  lemma ActiveSummaryText(activeCount: nat)
    ensures ActiveSummary(activeCount).Some? <==> activeCount > 0
    ensures activeCount > 0 ==>
      var t := ActiveSummary(activeCount).value;
      (t[|t| - 8..] == "s active" <==> activeCount != 1)
  {
    if activeCount > 0 {
      var d := NatToString(activeCount);
      var t := ActiveSummary(activeCount).value;
      if activeCount == 1 {
        assert t == "1 filter active";
      } else {
        assert t == d + " filters active";
      }
    }
  }

  /** The "s" suffix of the results line appears exactly when the count is not 1. */
  lemma ResultSummaryPlural(resultCount: nat)
    ensures var t := ResultSummary(resultCount, "");
      (t[|t| - 7..] == "s found" <==> resultCount != 1)
  {
    var t := ResultSummary(resultCount, "");
    if resultCount == 1 {
      assert t == "1 result found";
    } else {
      assert t == NatToString(resultCount) + " results found";
    }
  }

  /** The count badge on the Filters button, guarded by the count alone. */
  predicate ShowsBadge(activeCount: nat)
  {
    activeCount > 0
  }

  /** "Clear All" sits in the advanced-filters card, so it needs the card open as well as a non-zero count. */
  predicate ShowsClearAll(isFilterOpen: bool, activeCount: nat)
  {
    isFilterOpen && activeCount > 0
  }

  /** The results footer: the results line, and the active summary with its Clear button. */
  datatype Footer = Footer(results: string, active: Option<string>)

  /** The footer is rendered only when the caller passes `resultCount`. */
  function ResultsFooter(resultCount: Option<nat>, f: FilterOptions): Option<Footer>
  {
    if resultCount.Some? then
      Some(Footer(ResultSummary(resultCount.value, f.search), ActiveSummary(|ActiveFacets(f)|)))
    else None
  }

  /**
   * The badge shows exactly while the filters differ from the cleared record;
   * "Clear All" exactly while also the card is open; the footer exactly when a
   * result count is passed, and its Clear button exactly while also the filters
   * differ from the cleared record. After clearing, none of the three shows.
   */
  lemma ClearShownIffFiltersSet(f: FilterOptions, isFilterOpen: bool, resultCount: Option<nat>)
    ensures ShowsBadge(|ActiveFacets(f)|) <==> f != Cleared
    ensures ShowsClearAll(isFilterOpen, |ActiveFacets(f)|) <==> isFilterOpen && f != Cleared
    ensures ResultsFooter(resultCount, f).Some? <==> resultCount.Some?
    ensures ResultsFooter(resultCount, f).Some? ==>
      (ResultsFooter(resultCount, f).value.active.Some? <==> f != Cleared)
    ensures !ShowsBadge(|ActiveFacets(Cleared)|) && !ShowsClearAll(isFilterOpen, |ActiveFacets(Cleared)|)
    ensures ResultsFooter(resultCount, Cleared).Some? ==> ResultsFooter(resultCount, Cleared).value.active.None?
  {
    ActiveCountZeroIffCleared(f);
    ActiveSummaryText(|ActiveFacets(f)|);
    ActiveSummaryText(|ActiveFacets(Cleared)|);
  }

  /** The toggled `isFilterOpen` flag of the advanced-filters card. */
  class FilterPanel {
    var isFilterOpen: bool

    constructor ()
      ensures !isFilterOpen
    {
      isFilterOpen := false;
    }

    /** The Filters button. */
    method Toggle()
      modifies this
      ensures isFilterOpen == !old(isFilterOpen)
    {
      isFilterOpen := !isFilterOpen;
    }

    /** The close (X) button of the card. */
    method Close()
      modifies this
      ensures !isFilterOpen
    {
      isFilterOpen := false;
    }
  }
}
